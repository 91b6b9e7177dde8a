/**
 * routes/inference.py: the pitch sweep. POST /get-inferred-audio starts a
 * background job that looks up a voice model, fetches its archive, resolves
 * the weights and index files inside it by suffix, converts the reference
 * artist's vocal stem once for every pitch from -15 to 15, stores each output
 * at a per-model, per-pitch blob path, and writes the list of output URLs back
 * into the model record.
 */
module Inference {
  import opened Wrappers
  import opened Text
  import opened Py
  import opened Services
  import opened Steps

  const InferenceBucket := "opus-storage-bucket"
  const SweepSpace := "r3gm/rvc_zero"
  const LowestPitch := -15
  const HighestPitch := 15
  /** The number of pitches in range(-15, 16). */
  const SweepSize := 31

  /* ---------------- POST /get-inferred-audio ---------------- */

  /** The arguments of the background job the endpoint starts. */
  datatype SweepJob = SweepJob(modelId: Json, artistId: Json)

  /** The endpoint checks that both keys are PRESENT (not that they are truthy),
      then starts the job and answers at once. */
  function GetInferredAudio(body: map<string, Json>): (r: (Response, Option<SweepJob>))
    ensures r.0.status == 400 <==> "modelId" !in body || "spotifyArtistId" !in body
    ensures r.0.status != 400 ==> r.0.status == 200 && r.1 == Some(SweepJob(body["modelId"], body["spotifyArtistId"]))
    ensures r.0.status == 400 ==> r.1 == None
  {
    if "modelId" !in body || "spotifyArtistId" !in body then
      (Response(400, PlainText("Missing modelId or spotifyArtistId in request body")), None)
    else
      (Response(200, PlainText("Inferring successfully underway. Please wait for completion.")),
       Some(SweepJob(body["modelId"], body["spotifyArtistId"])))
  }

  /* ---------------- unzip_model_files ---------------- */

  /** An entry of the directory an archive is extracted into. */
  datatype Entry = File(name: string) | Dir(name: string, children: seq<Entry>)

  /** os.listdir: the names of the top-level entries, in listing order. */
  function ListDir(entries: seq<Entry>): (names: seq<string>)
    ensures |names| == |entries|
    ensures forall k :: 0 <= k < |entries| ==> names[k] == entries[k].name
  {
    seq(|entries|, k requires 0 <= k < |entries| => entries[k].name)
  }

  /** Which variable a listed name is assigned to by the if/elif of the scan. */
  datatype Slot = Weights | Index | Other

  function Classify(name: string): Slot {
    if EndsWith(name, ".pth") then Weights else if EndsWith(name, ".index") then Index else Other
  }

  /** The position of the last listed name that goes to the slot, if any:
      each later match overwrites the variable. */
  function LastOfSlot(names: seq<string>, slot: Slot): (r: Option<nat>)
    ensures r.Some? ==> r.value < |names| && Classify(names[r.value]) == slot &&
                        forall j :: r.value < j < |names| ==> Classify(names[j]) != slot
    ensures r.None? <==> forall j :: 0 <= j < |names| ==> Classify(names[j]) != slot
  {
    if names == [] then None
    else if Classify(names[|names| - 1]) == slot then Some(|names| - 1)
    else LastOfSlot(names[..|names| - 1], slot)
  }

  /** The value of pth_file_url (or index_file_url) after the scan; None when it was never assigned. */
  function Assigned(tmpDir: string, names: seq<string>, slot: Slot): Option<string> {
    match LastOfSlot(names, slot)
    case Some(k) => Some(Join(tmpDir, names[k]))
    case None => None
  }

  /** The result of the scan: both paths, or the UnboundLocalError that the
      test `not pth_file_url or not index_file_url` raises on a variable that
      was never assigned. */
  function Resolve(tmpDir: string, names: seq<string>): Outcome<(string, string)> {
    match (Assigned(tmpDir, names, Weights), Assigned(tmpDir, names, Index))
    case (Some(pth), Some(idx)) => Ok((pth, idx))
    case _ => Raised(UnboundLocalError)
  }

  /** unzip_model_files: open the archive (BadZipFile if it is not one), extract
      it into tmpDir, scan the top-level names. */
  function ModelFiles(archive: Option<seq<Entry>>, tmpDir: string): Outcome<(string, string)> {
    match archive
    case None => Raised(BadZipFile)
    case Some(entries) => Resolve(tmpDir, ListDir(entries))
  }

  /** No name ends in both suffixes, so the elif never hides a name from the other slot. */
  lemma SuffixesExclusive(name: string)
    ensures EndsWith(name, ".pth") ==> !EndsWith(name, ".index")
  {
    if EndsWith(name, ".pth") {
      assert name[|name| - 1] == ".pth"[3];
    }
  }

  lemma ClassifyIndex(names: seq<string>)
    ensures forall k :: 0 <= k < |names| ==> (EndsWith(names[k], ".index") <==> Classify(names[k]) == Index)
  {
    forall k | 0 <= k < |names|
      ensures EndsWith(names[k], ".index") <==> Classify(names[k]) == Index
    {
      SuffixesExclusive(names[k]);
    }
  }

  /** The scan succeeds exactly when some top-level name ends in ".pth" and some ends in ".index". */
  lemma ResolveSucceedsIff(tmpDir: string, names: seq<string>)
    ensures Resolve(tmpDir, names).Ok? <==>
      (exists k :: 0 <= k < |names| && EndsWith(names[k], ".pth")) &&
      (exists k :: 0 <= k < |names| && EndsWith(names[k], ".index"))
  {
    ClassifyIndex(names);
  }

  /** On success the weights path is tmpDir joined with the LAST listed name
      ending in ".pth", the index path is tmpDir joined with the last listed
      name ending in ".index", and the two come from different names. */
  lemma ResolvedPaths(tmpDir: string, names: seq<string>)
    requires Resolve(tmpDir, names).Ok?
    ensures LastOfSlot(names, Weights).Some? && LastOfSlot(names, Index).Some?
    ensures var w, x := LastOfSlot(names, Weights).value, LastOfSlot(names, Index).value;
      && w < |names| && x < |names| && w != x
      && EndsWith(names[w], ".pth") && Resolve(tmpDir, names).value.0 == Join(tmpDir, names[w])
      && EndsWith(names[x], ".index") && Resolve(tmpDir, names).value.1 == Join(tmpDir, names[x])
      && (forall j :: w < j < |names| ==> !EndsWith(names[j], ".pth"))
      && (forall j :: x < j < |names| ==> !EndsWith(names[j], ".index"))
    ensures EndsWith(Resolve(tmpDir, names).value.0, ".pth")
    ensures EndsWith(Resolve(tmpDir, names).value.1, ".index")
    ensures Resolve(tmpDir, names).value.0 != Resolve(tmpDir, names).value.1
  {
    var w := LastOfSlot(names, Weights).value;
    var x := LastOfSlot(names, Index).value;
    var pth, idx := Join(tmpDir, names[w]), Join(tmpDir, names[x]);
    assert Resolve(tmpDir, names).value == (pth, idx);
    assert EndsWith(names[w], ".pth") && forall j :: w < j < |names| ==> !EndsWith(names[j], ".pth");
    assert EndsWith(names[x], ".index") && w != x && forall j :: x < j < |names| ==> !EndsWith(names[j], ".index") by {
      forall j | x <= j < |names|
        ensures Classify(names[j]) == Index <==> EndsWith(names[j], ".index")
      {
        SuffixesExclusive(names[j]);
      }
    }
    assert EndsWith(pth, ".pth") by {
      EndsWithTransitive(pth, names[w], ".pth");
    }
    assert EndsWith(idx, ".index") && pth != idx by {
      EndsWithTransitive(idx, names[x], ".index");
      SuffixesExclusive(pth);
    }
  }

  /** Only top-level names are examined: an archive holding a single folder
      resolves to an error whatever the folder contains. */
  lemma NestedFolderNotSearched(tmpDir: string, folder: string, inner: seq<Entry>)
    ensures ModelFiles(Some([Dir(folder, inner)]), tmpDir) == Raised(UnboundLocalError)
  {
    SuffixesExclusive(folder);
    assert ListDir([Dir(folder, inner)]) == [folder];
  }

  /** One more listed name either goes to the slot, replacing its value, or leaves it alone. */
  lemma AssignedNext(tmpDir: string, names: seq<string>, i: nat, slot: Slot)
    requires i < |names|
    ensures Assigned(tmpDir, names[..i + 1], slot) ==
            if Classify(names[i]) == slot then Some(Join(tmpDir, names[i])) else Assigned(tmpDir, names[..i], slot)
  {
    assert names[..i + 1][..i] == names[..i];
  }

  method UnzipModelFiles(archive: Option<seq<Entry>>, tmpDir: string) returns (r: Outcome<(string, string)>)
    ensures r == ModelFiles(archive, tmpDir)
  {
    if archive.None? {
      return Raised(BadZipFile);
    }
    var names := ListDir(archive.value);
    var pth: Option<string> := None;
    var index: Option<string> := None;
    for i := 0 to |names|
      invariant pth == Assigned(tmpDir, names[..i], Weights)
      invariant index == Assigned(tmpDir, names[..i], Index)
    {
      AssignedNext(tmpDir, names, i, Weights);
      AssignedNext(tmpDir, names, i, Index);
      if EndsWith(names[i], ".pth") {
        pth := Some(Join(tmpDir, names[i]));
      } else if EndsWith(names[i], ".index") {
        index := Some(Join(tmpDir, names[i]));
      }
    }
    assert names[..|names|] == names;
    if pth.None? || index.None? {
      r := Raised(UnboundLocalError);
    } else {
      r := Ok((pth.value, index.value));
    }
  }

  /* ---------------- infer_audio and the sweep ---------------- */

  /** The blob path of the output for one pitch of one model. */
  function PitchPath(modelName: string, pitch: int): string {
    "model-inferred-audios/" + modelName + "/pitch" + IntToString(pitch) + "-vocal.wav"
  }

  /** Under one model name, distinct pitches are stored at distinct paths. */
  lemma PitchPathInjective(modelName: string, p: int, q: int)
    requires PitchPath(modelName, p) == PitchPath(modelName, q)
    ensures p == q
  {
    FrameCancel("model-inferred-audios/" + modelName + "/pitch", IntToString(p), IntToString(q), "-vocal.wav");
    IntToStringInjective(p, q);
  }

  /** The conversion request infer_audio sends for one pitch. */
  function SweepCall(referenceUrl: string, pth: string, idx: string, pitch: int): Call {
    Call(SweepSpace, Run(ConversionRequest([FileArg(referenceUrl)], FileArg(pth), "rmvpe", pitch as real,
                                           FileArg(idx), 1.0, 4, 1.0, 0.35)))
  }

  /** The calls of the first n iterations, iteration k using pitch -15 + k. */
  function SweepCalls(referenceUrl: string, pth: string, idx: string, n: nat): seq<Call> {
    seq(n, k requires 0 <= k < n => SweepCall(referenceUrl, pth, idx, LowestPitch + k))
  }

  /** What `result[0]` gives in each of the 31 iterations. */
  function SweepOutcomes(respond: Call -> Reply, referenceUrl: string, pth: string, idx: string): seq<Outcome<string>> {
    seq(SweepSize, k requires 0 <= k < SweepSize => First(respond(SweepCall(referenceUrl, pth, idx, LowestPitch + k))))
  }

  /** The uploads of the first n iterations, all of which returned. */
  function SweepUploads(modelName: string, outs: seq<Outcome<string>>, n: nat): (ups: seq<Upload>)
    requires n <= |outs| && forall k :: 0 <= k < n ==> outs[k].Ok?
    ensures |ups| == n
  {
    seq(n, k requires 0 <= k < n => Upload(PitchPath(modelName, LowestPitch + k), outs[k].value))
  }

  /** The URLs collected by the first n iterations. */
  function SweepUrls(bucketName: string, modelName: string, n: nat): seq<string> {
    seq(n, k requires 0 <= k < n => PublicUrl(bucketName, PitchPath(modelName, LowestPitch + k)))
  }

  /** The sweep converts every integer pitch from -15 to 15, once each, in
      strictly ascending order, and the calls differ in nothing but the pitch. */
  lemma SweepPitchOrder(referenceUrl: string, pth: string, idx: string)
    ensures var calls := SweepCalls(referenceUrl, pth, idx, SweepSize);
      && |calls| == HighestPitch - LowestPitch + 1
      && (forall k :: 0 <= k < |calls| ==> calls[k].request.Run? && calls[k].space == calls[0].space)
      && (forall k :: 0 <= k < |calls| ==> ConvertsAt(calls[k], (LowestPitch + k) as real))
      && (forall j, k :: 0 <= j < k < |calls| ==>
            calls[j].request.conversion.pitchLevel < calls[k].request.conversion.pitchLevel)
      && (forall k :: 0 <= k < |calls| ==>
            calls[k].request.conversion == calls[0].request.conversion.(pitchLevel := calls[k].request.conversion.pitchLevel))
  {
    var calls := SweepCalls(referenceUrl, pth, idx, SweepSize);
    forall k | 0 <= k < SweepSize
      ensures calls[k] == SweepCall(referenceUrl, pth, idx, LowestPitch + k)
    {
    }
  }

  lemma SweepUploadPath(modelName: string, outs: seq<Outcome<string>>, n: nat, k: nat)
    requires n <= |outs| && forall j :: 0 <= j < n ==> outs[j].Ok?
    requires k < n
    ensures SweepUploads(modelName, outs, n)[k] == Upload(PitchPath(modelName, LowestPitch + k), outs[k].value)
  {
  }

  /** No two iterations of one sweep write the same blob. */
  lemma SweepPathsDistinct(modelName: string, outs: seq<Outcome<string>>, n: nat)
    requires n <= |outs| && forall j :: 0 <= j < n ==> outs[j].Ok?
    ensures forall j, k :: 0 <= j < k < n ==> SweepUploads(modelName, outs, n)[j].path != SweepUploads(modelName, outs, n)[k].path
  {
    forall j, k | 0 <= j < k < n
      ensures SweepUploads(modelName, outs, n)[j].path != SweepUploads(modelName, outs, n)[k].path
    {
      SweepUploadPath(modelName, outs, n, j);
      SweepUploadPath(modelName, outs, n, k);
      if PitchPath(modelName, LowestPitch + j) == PitchPath(modelName, LowestPitch + k) {
        PitchPathInjective(modelName, LowestPitch + j, LowestPitch + k);
      }
    }
  }

  /** The collected URLs are pairwise distinct. */
  lemma SweepUrlsDistinct(bucketName: string, modelName: string, n: nat)
    ensures forall j, k :: 0 <= j < k < n ==> SweepUrls(bucketName, modelName, n)[j] != SweepUrls(bucketName, modelName, n)[k]
  {
    forall j, k | 0 <= j < k < n
      ensures SweepUrls(bucketName, modelName, n)[j] != SweepUrls(bucketName, modelName, n)[k]
    {
      if SweepUrls(bucketName, modelName, n)[j] == SweepUrls(bucketName, modelName, n)[k] {
        PublicUrlInjective(bucketName, PitchPath(modelName, LowestPitch + j), PitchPath(modelName, LowestPitch + k));
        PitchPathInjective(modelName, LowestPitch + j, LowestPitch + k);
      }
    }
  }

  /** After the sweep's uploads, the blob for pitch -15 + k holds the output of
      iteration k: no later iteration overwrites it. */
  lemma SweepReadBack(before: seq<Upload>, modelName: string, outs: seq<Outcome<string>>, n: nat, k: nat)
    requires n <= |outs| && forall j :: 0 <= j < n ==> outs[j].Ok?
    requires k < n
    ensures Latest(before + SweepUploads(modelName, outs, n), PitchPath(modelName, LowestPitch + k)) == Some(outs[k].value)
  {
    var ups := SweepUploads(modelName, outs, n);
    SweepPathsDistinct(modelName, outs, n);
    SweepUploadPath(modelName, outs, n, k);
    LatestIsLastWrite(before, ups, k, PitchPath(modelName, LowestPitch + k));
  }

  /** infer_audio: one conversion, then the upload of `result[0]`. There is no
      check for an error reply: a reply without a first item raises at `result[0]`. */
  method InferAudio(pth: string, idx: string, referenceUrl: string, pitch: int, modelName: string,
                    gradio: Gradio, bucket: Bucket) returns (r: Outcome<string>)
    modifies gradio, bucket
    ensures gradio.calls == old(gradio.calls) + [SweepCall(referenceUrl, pth, idx, pitch)]
    ensures var out := First(gradio.respond(SweepCall(referenceUrl, pth, idx, pitch)));
      if out.Ok? then
        r == Ok(PublicUrl(bucket.name, PitchPath(modelName, pitch))) &&
        bucket.uploads == old(bucket.uploads) + [Upload(PitchPath(modelName, pitch), out.value)]
      else
        r == out && bucket.uploads == old(bucket.uploads)
  {
    var result := gradio.Predict(SweepCall(referenceUrl, pth, idx, pitch));
    var audioUrl := First(result);
    if audioUrl.Raised? {
      return Raised(audioUrl.error);
    }
    var url := bucket.UploadFromFile(PitchPath(modelName, pitch), audioUrl.value);
    r := Ok(url);
  }

  /** What iteration i adds to the calls and URLs, and what it sees of the reply. */
  lemma SweepStep(respond: Call -> Reply, referenceUrl: string, pth: string, idx: string,
                  bucketName: string, modelName: string, i: nat)
    requires i < SweepSize
    ensures SweepCalls(referenceUrl, pth, idx, i + 1) ==
            SweepCalls(referenceUrl, pth, idx, i) + [SweepCall(referenceUrl, pth, idx, LowestPitch + i)]
    ensures SweepUrls(bucketName, modelName, i + 1) ==
            SweepUrls(bucketName, modelName, i) + [PublicUrl(bucketName, PitchPath(modelName, LowestPitch + i))]
    ensures SweepOutcomes(respond, referenceUrl, pth, idx)[i] == First(respond(SweepCall(referenceUrl, pth, idx, LowestPitch + i)))
  {
  }

  lemma SweepUploadsNext(modelName: string, outs: seq<Outcome<string>>, i: nat)
    requires i < |outs| && forall k :: 0 <= k <= i ==> outs[k].Ok?
    ensures SweepUploads(modelName, outs, i + 1) ==
            SweepUploads(modelName, outs, i) + [Upload(PitchPath(modelName, LowestPitch + i), outs[i].value)]
  {
  }

  /** Lines 57-60, iteration i: infer_audio at pitch -15 + i, with the calls
      and uploads of iterations 0 to i - 1 already made. */
  method SweepIteration(pth: string, idx: string, referenceUrl: string, modelName: string,
                        gradio: Gradio, bucket: Bucket, i: nat, ghost calls0: seq<Call>, ghost uploads0: seq<Upload>)
    returns (url: Outcome<string>)
    requires i < SweepSize
    requires forall k :: 0 <= k < i ==> SweepOutcomes(gradio.respond, referenceUrl, pth, idx)[k].Ok?
    requires gradio.calls == calls0 + SweepCalls(referenceUrl, pth, idx, i)
    requires bucket.uploads == uploads0 + SweepUploads(modelName, SweepOutcomes(gradio.respond, referenceUrl, pth, idx), i)
    modifies gradio, bucket
    ensures gradio.calls == calls0 + SweepCalls(referenceUrl, pth, idx, i + 1)
    ensures var outs := SweepOutcomes(gradio.respond, referenceUrl, pth, idx);
      if outs[i].Ok? then
        url == Ok(PublicUrl(bucket.name, PitchPath(modelName, LowestPitch + i))) &&
        bucket.uploads == uploads0 + SweepUploads(modelName, outs, i + 1)
      else
        url == outs[i] && bucket.uploads == old(bucket.uploads)
  {
    ghost var outs := SweepOutcomes(gradio.respond, referenceUrl, pth, idx);
    SweepStep(gradio.respond, referenceUrl, pth, idx, bucket.name, modelName, i);
    url := InferAudio(pth, idx, referenceUrl, LowestPitch + i, modelName, gradio, bucket);
    if url.Ok? {
      SweepUploadsNext(modelName, outs, i);
    }
  }

  /** Lines 57-60: one conversion per pitch in range(-15, 16), the URLs appended
      in that order; an exception ends the loop. */
  method RunSweep(pth: string, idx: string, referenceUrl: string, modelName: string,
                  gradio: Gradio, bucket: Bucket) returns (r: Outcome<seq<string>>)
    modifies gradio, bucket
    ensures var outs := SweepOutcomes(gradio.respond, referenceUrl, pth, idx);
      && gradio.calls == old(gradio.calls) + SweepCalls(referenceUrl, pth, idx, Attempted(outs))
      && bucket.uploads == old(bucket.uploads) + SweepUploads(modelName, outs, LeadingOk(outs))
      && r == if LeadingOk(outs) == SweepSize then Ok(SweepUrls(bucket.name, modelName, SweepSize))
              else Raised(outs[LeadingOk(outs)].error)
  {
    ghost var outs := SweepOutcomes(gradio.respond, referenceUrl, pth, idx);
    ghost var calls0, uploads0 := gradio.calls, bucket.uploads;
    var inferred: seq<string> := [];
    for i := 0 to SweepSize
      invariant forall k :: 0 <= k < i ==> outs[k].Ok?
      invariant gradio.calls == calls0 + SweepCalls(referenceUrl, pth, idx, i)
      invariant bucket.uploads == uploads0 + SweepUploads(modelName, outs, i)
      invariant inferred == SweepUrls(bucket.name, modelName, i)
    {
      var url := SweepIteration(pth, idx, referenceUrl, modelName, gradio, bucket, i, calls0, uploads0);
      if url.Raised? {
        StopsAt(outs, i);
        r := Raised(url.error);
        return;
      }
      SweepStep(gradio.respond, referenceUrl, pth, idx, bucket.name, modelName, i);
      inferred := inferred + [url.value];
    }
    LeadingOkIs(outs, SweepSize);
    r := Ok(inferred);
  }

  /* ---------------- process_inferred_audio ---------------- */

  /** Where process_inferred_audio stands before the sweep: it has stopped
      (with a result and the URLs it fetched), or it is ready to sweep. */
  datatype Prepared =
    | Exit(result: Outcome<Option<Response>>, fetched: seq<string>)
    | Ready(key: string, doc: ModelDoc, pth: string, idx: string, referenceUrl: string)

  /** Lines 38-55: look up the model, fetch and unpack the archive at
      fileUrls[1], look up the reference artist and its stem URL. */
  function Prepare(docs: map<string, ModelDoc>, modelId: Json, artistId: Json, artists: seq<ArtistDoc>,
                   tmpDir: string, fetch: string -> HttpResponse, unzip: string -> Option<seq<Entry>>): Prepared
  {
    match ObjectIdOf(modelId)
    case BadId => Exit(Raised(InvalidId), [])
    case NotText => Exit(Raised(TypeError), [])
    case FreshId => Exit(Ok(Some(Response(404, PlainText("Model not found")))), [])
    case ParsedId(key) =>
      if key !in docs then Exit(Ok(Some(Response(404, PlainText("Model not found")))), [])
      else
        var doc := docs[key];
        if |doc.fileUrls| < 2 then Exit(Raised(IndexError), [])
        else
          var url := doc.fileUrls[1];
          match ModelFiles(unzip(fetch(url).content), tmpDir)
          case Raised(e) => Exit(Raised(e), [url])
          case Ok((pth, idx)) =>
            match FindArtist(artists, artistId)
            case None => Exit(Ok(Some(Response(404, PlainText("Reference artist not found")))), [url])
            case Some(artist) =>
              if artist.audioStemUrl == "" then Exit(Ok(Some(Response(404, PlainText("Reference artist audio not found")))), [url])
              else Ready(key, doc, pth, idx, artist.audioStemUrl)
  }

  /** A missing model ends the job before anything is fetched. */
  lemma MissingModelFetchesNothing(docs: map<string, ModelDoc>, modelId: Json, artistId: Json, artists: seq<ArtistDoc>,
                                   tmpDir: string, fetch: string -> HttpResponse, unzip: string -> Option<seq<Entry>>)
    requires !ObjectIdOf(modelId).ParsedId? || ObjectIdOf(modelId).hex !in docs
    ensures Prepare(docs, modelId, artistId, artists, tmpDir, fetch, unzip).Exit?
    ensures Prepare(docs, modelId, artistId, artists, tmpDir, fetch, unzip).fetched == []
  {
  }

  /** The sweep starts only for a stored model whose archive (the SECOND file
      URL) resolves, with a reference artist that has a non-empty stem URL. */
  lemma ReadyMeansResolved(docs: map<string, ModelDoc>, modelId: Json, artistId: Json, artists: seq<ArtistDoc>,
                           tmpDir: string, fetch: string -> HttpResponse, unzip: string -> Option<seq<Entry>>)
    requires Prepare(docs, modelId, artistId, artists, tmpDir, fetch, unzip).Ready?
    ensures var p := Prepare(docs, modelId, artistId, artists, tmpDir, fetch, unzip);
      && ObjectIdOf(modelId) == ParsedId(p.key) && p.key in docs && p.doc == docs[p.key]
      && |p.doc.fileUrls| >= 2
      && ModelFiles(unzip(fetch(p.doc.fileUrls[1]).content), tmpDir) == Ok((p.pth, p.idx))
      && exists a :: FindArtist(artists, artistId) == Some(a) && a.audioStemUrl == p.referenceUrl && a.audioStemUrl != ""
  {
    var a := FindArtist(artists, artistId).value;
    assert a.audioStemUrl == Prepare(docs, modelId, artistId, artists, tmpDir, fetch, unzip).referenceUrl;
  }

  /** The background job: on success it returns None after replacing the whole
      record with a copy whose inferredAudioUrls is the 31 collected URLs; on
      any early return or exception it writes nothing to the record. */
  method ProcessInferredAudio(modelId: Json, artistId: Json, artists: seq<ArtistDoc>, tmpDir: string,
                              unzip: string -> Option<seq<Entry>>,
                              models: ModelsCollection, web: Web, gradio: Gradio, bucket: Bucket)
    returns (r: Outcome<Option<Response>>)
    requires bucket.name == InferenceBucket
    modifies models, web, gradio, bucket
    ensures match Prepare(old(models.docs), modelId, artistId, artists, tmpDir, web.respond, unzip)
      case Exit(result, fetched) =>
        && r == result
        && web.fetched == old(web.fetched) + fetched
        && models.docs == old(models.docs)
        && gradio.calls == old(gradio.calls)
        && bucket.uploads == old(bucket.uploads)
      case Ready(key, doc, pth, idx, referenceUrl) =>
        var outs := SweepOutcomes(gradio.respond, referenceUrl, pth, idx);
        && web.fetched == old(web.fetched) + [doc.fileUrls[1]]
        && gradio.calls == old(gradio.calls) + SweepCalls(referenceUrl, pth, idx, Attempted(outs))
        && bucket.uploads == old(bucket.uploads) + SweepUploads(doc.name, outs, LeadingOk(outs))
        && if LeadingOk(outs) == SweepSize then
             r == Ok(None) &&
             models.docs == old(models.docs)[key := doc.(inferredAudioUrls := Some(SweepUrls(bucket.name, doc.name, SweepSize)))]
           else
             r == Raised(outs[LeadingOk(outs)].error) && models.docs == old(models.docs)
  {
    var id := ObjectIdOf(modelId);
    if id.BadId? {
      return Raised(InvalidId);
    }
    if id.NotText? {
      return Raised(TypeError);
    }
    var model := models.FindOne(id);
    if model.None? {
      return Ok(Some(Response(404, PlainText("Model not found"))));
    }
    var doc := model.value;
    if |doc.fileUrls| < 2 {
      return Raised(IndexError);
    }
    var zipped := web.Get(doc.fileUrls[1]);
    var files := UnzipModelFiles(unzip(zipped.content), tmpDir);
    if files.Raised? {
      return Raised(files.error);
    }
    var (pth, idx) := files.value;
    var artist := FindArtist(artists, artistId);
    if artist.None? {
      return Ok(Some(Response(404, PlainText("Reference artist not found"))));
    }
    var referenceUrl := artist.value.audioStemUrl;
    if referenceUrl == "" {
      return Ok(Some(Response(404, PlainText("Reference artist audio not found"))));
    }
    var inferred := RunSweep(pth, idx, referenceUrl, doc.name, gradio, bucket);
    if inferred.Raised? {
      return Raised(inferred.error);
    }
    models.UpdateSet(id.hex, doc.(inferredAudioUrls := Some(inferred.value)));
    r := Ok(None);
  }
}
