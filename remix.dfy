/**
 * routes/remix.py: POST /split-for-remix separates a track and stores two
 * stems, POST /remix looks up a model and its archive, and infer_audio
 * converts a reference at its detected pitch and stores the result. Each is
 * a function of the request, the stored records and the service oracles,
 * returning what the view returns or raises together with the trace of
 * external effects it performed, in order.
 */
module Remix {
  import opened Wrappers
  import opened Text
  import opened Py
  import opened Services
  import opened Inference

  const RemixBucket := "huggingbass-bucket"
  const RemixSeparatorSpace := "r3gm/Audio_separator"
  const RemixConversionSpace := "mealss/rvc_zero"

  /** An external effect: an HTTP GET, a Gradio predict call, a blob upload. */
  datatype Effect = Fetched(url: string) | Predicted(call: Call) | Stored(upload: Upload)

  /** A result (returned or raised) with the effects performed on the way. */
  datatype Traced<+T> = Traced(result: Outcome<T>, effects: seq<Effect>)

  /** The uploads of a trace, in order. */
  function Stores(effects: seq<Effect>): (us: seq<Upload>)
    ensures |us| <= |effects|
  {
    if effects == [] then []
    else (if effects[0].Stored? then [effects[0].upload] else []) + Stores(effects[1..])
  }

  /* ---------------- POST /split-for-remix ---------------- */

  function RemixStemPath(trackId: string, file: string): string {
    "remix-seperated-files/" + trackId + "/" + file
  }

  /** The separation both stems are requested with: the "vocal" stem of the track. */
  function VocalSplit(trackUrl: string): Call {
    Call(RemixSeparatorSpace, SoundSeparate(SeparationRequest(FileArg(trackUrl), "vocal", false, false)))
  }

  function MissingTrack(): Response {
    Response(400, JsonObject(map["error" := "Missing trackUrl or trackId"]))
  }

  /** Both body values must be truthy; then two separations, two uploads, and
      the two public URLs. */
  function SplitForRemix(body: map<string, Json>, respond: Call -> Reply): (t: Traced<Response>)
    ensures t.result == Ok(MissingTrack()) <==> !Truthy(Get(body, "trackUrl")) || !Truthy(Get(body, "trackId"))
    ensures t.result == Ok(MissingTrack()) ==> t.effects == []
    ensures t.result.Ok? ==> t.result.value == MissingTrack() || t.result.value.status == 200
    ensures t.result.Raised? ==>
      var c := VocalSplit(Str(Get(body, "trackUrl")));
      t.effects == [Predicted(c)] && First(respond(c)) == Raised(t.result.error)
    ensures t.result.Ok? && t.result.value.status == 200 ==>
      var c := VocalSplit(Str(Get(body, "trackUrl")));
      var id := Str(Get(body, "trackId"));
      && First(respond(c)).Ok?
      && |t.effects| == 4 && t.effects[..2] == [Predicted(c), Predicted(c)]
      && Stores(t.effects) == [Upload(RemixStemPath(id, "vocal.wav"), First(respond(c)).value),
                               Upload(RemixStemPath(id, "background.wav"), First(respond(c)).value)]
      && t.result.value.body == JsonObject(map["vocal" := PublicUrl(RemixBucket, RemixStemPath(id, "vocal.wav")),
                                               "background" := PublicUrl(RemixBucket, RemixStemPath(id, "background.wav"))])
  {
    var trackUrl, trackId := Get(body, "trackUrl"), Get(body, "trackId");
    if !Truthy(trackUrl) || !Truthy(trackId) then Traced(Ok(MissingTrack()), [])
    else
      var c := VocalSplit(Str(trackUrl));
      var voice := First(respond(c));
      if voice.Raised? then Traced(Raised(voice.error), [Predicted(c)])
      else
        var background := First(respond(c));
        var voicePath := RemixStemPath(Str(trackId), "vocal.wav");
        var backgroundPath := RemixStemPath(Str(trackId), "background.wav");
        var effects := [Predicted(c), Predicted(c), Stored(Upload(voicePath, voice.value)),
                        Stored(Upload(backgroundPath, background.value))];
        assert Stores(effects[2..]) == [Upload(voicePath, voice.value), Upload(backgroundPath, background.value)] by {
          assert effects[2..][1..] == effects[3..];
        }
        assert effects[1..][1..] == effects[2..];
        Traced(Ok(Response(200, JsonObject(map["vocal" := PublicUrl(RemixBucket, voicePath),
                                               "background" := PublicUrl(RemixBucket, backgroundPath)]))),
               effects)
  }

  /** The "background" blob is written with the vocal stem: after a successful
      split both blobs hold the same file, whatever the bucket held before. */
  lemma SplitForRemixBackgroundIsVocal(body: map<string, Json>, respond: Call -> Reply,
                                       before: seq<Upload>)
    requires SplitForRemix(body, respond).result.Ok?
    requires SplitForRemix(body, respond).result.value.status == 200
    ensures var id := Str(Get(body, "trackId"));
      var after := before + Stores(SplitForRemix(body, respond).effects);
      && Latest(after, RemixStemPath(id, "vocal.wav")).Some?
      && Latest(after, RemixStemPath(id, "background.wav")) == Latest(after, RemixStemPath(id, "vocal.wav"))
  {
    var id := Str(Get(body, "trackId"));
    var t := SplitForRemix(body, respond);
    var v, b := Stores(t.effects)[0], Stores(t.effects)[1];
    var vp, bp := RemixStemPath(id, "vocal.wav"), RemixStemPath(id, "background.wav");
    assert before + Stores(t.effects) == before + [v] + [b];
    assert vp != bp by {
      assert vp[|vp| - 9] == 'v' && bp[|bp| - 9] == 'r';
    }
    LatestAfterUpload(before + [v], b, vp);
    LatestAfterUpload(before, v, vp);
    LatestAfterUpload(before + [v], b, bp);
  }

  /** Different tracks never share a stem blob. */
  lemma RemixStemPathsSeparateTracks(id1: string, id2: string, file: string)
    requires RemixStemPath(id1, file) == RemixStemPath(id2, file)
    ensures id1 == id2
  {
    var p := "remix-seperated-files/";
    assert p + id1 + "/" + file == p + id1 + ("/" + file);
    assert p + id2 + "/" + file == p + id2 + ("/" + file);
    FrameCancel(p, id1, id2, "/" + file);
  }

  /* ---------------- POST /remix ---------------- */

  function MissingModel(): Response {
    Response(400, JsonObject(map["error" := "Missing modelId or referenceUrl"]))
  }

  function ModelNotFound(): Response {
    Response(404, PlainText("Model not found"))
  }

  /** Both body values must be truthy; then the model is looked up by id, and
      the archive at its FIRST file URL is fetched and opened. The archive is
      then handed to unzip_model_files with one argument more than it takes,
      so the view raises TypeError there and never converts anything. */
  function RemixAudio(body: map<string, Json>, docs: map<string, ModelDoc>,
                      fetch: string -> HttpResponse, unzip: string -> Option<seq<Entry>>): (t: Traced<Response>)
    ensures t.result == Ok(MissingModel()) <==> !Truthy(Get(body, "modelId")) || !Truthy(Get(body, "referenceUrl"))
    ensures t.result.Ok? ==> t.result.value in {MissingModel(), ModelNotFound()}
    ensures forall k :: 0 <= k < |t.effects| ==> t.effects[k].Fetched?
    ensures |t.effects| <= 1
    ensures t.result.Raised? ==> t.result.error in {InvalidId, IndexError, BadZipFile, TypeError}
    ensures t.effects != [] <==>
      && Truthy(Get(body, "modelId")) && Truthy(Get(body, "referenceUrl"))
      && ObjectIdOf(Get(body, "modelId")).ParsedId?
      && ObjectIdOf(Get(body, "modelId")).hex in docs
      && |docs[ObjectIdOf(Get(body, "modelId")).hex].fileUrls| > 0
    ensures t.effects != [] ==> t.effects == [Fetched(docs[ObjectIdOf(Get(body, "modelId")).hex].fileUrls[0])]
    ensures Truthy(Get(body, "modelId")) && Truthy(Get(body, "referenceUrl")) ==>
      var id := ObjectIdOf(Get(body, "modelId"));
      && (id.BadId? ==> t == Traced(Raised(InvalidId), []))
      && (id.NotText? ==> t == Traced(Raised(TypeError), []))
      && (id.FreshId? ==> t == Traced(Ok(ModelNotFound()), []))
      && (id.ParsedId? && id.hex !in docs ==> t == Traced(Ok(ModelNotFound()), []))
      && (id.ParsedId? && id.hex in docs && docs[id.hex].fileUrls == [] ==> t == Traced(Raised(IndexError), []))
    ensures t.effects != [] ==>
      t.result == Raised(if unzip(fetch(t.effects[0].url).content).None? then BadZipFile else TypeError)
  {
    var modelId, referenceUrl := Get(body, "modelId"), Get(body, "referenceUrl");
    if !Truthy(modelId) || !Truthy(referenceUrl) then Traced(Ok(MissingModel()), [])
    else
      match ObjectIdOf(modelId)
      case BadId => Traced(Raised(InvalidId), [])
      case NotText => Traced(Raised(TypeError), [])
      case FreshId => Traced(Ok(ModelNotFound()), [])
      case ParsedId(key) =>
        if key !in docs then Traced(Ok(ModelNotFound()), [])
        else
          var doc := docs[key];
          if |doc.fileUrls| == 0 then Traced(Raised(IndexError), [])
          else
            var url := doc.fileUrls[0];
            match unzip(fetch(url).content)
            case None => Traced(Raised(BadZipFile), [Fetched(url)])
            case Some(_) => Traced(Raised(TypeError), [Fetched(url)])
  }

  /* ---------------- infer_audio ---------------- */

  function RemixOutputPath(modelName: string): string {
    "remix-inferred-audios/" + modelName + "/isolated-vocal.wav"
  }

  /** The conversion of the reference at the given pitch: the model files are
      passed as plain strings, the reference as a file. */
  function RemixCall(pth: string, idx: string, referenceUrl: string, pitch: real): Call {
    Call(RemixConversionSpace, Run(ConversionRequest([FileArg(referenceUrl)], TextArg(pth), "rmvpe+", pitch,
                                                     TextArg(idx), 0.75, 3, 0.25, 0.5)))
  }

  /** One conversion at the pitch detected on the reference; an error reply
      raises before anything is stored; otherwise `result[0]` is stored under
      the model's NAME and its public URL returned. */
  function RemixInferAudio(pth: string, idx: string, referenceUrl: string, modelName: string,
                           respond: Call -> Reply, detectPitch: string -> real): (t: Traced<string>)
    ensures |t.effects| >= 1
    ensures t.effects[0] == Predicted(RemixCall(pth, idx, referenceUrl, detectPitch(referenceUrl)))
    ensures ConvertsAt(t.effects[0].call, detectPitch(referenceUrl))
    ensures t.result.Ok? <==> !HasError(respond(t.effects[0].call)) && respond(t.effects[0].call).Items? &&
                              |respond(t.effects[0].call).items| > 0
    ensures t.result.Raised? ==> t.effects == [t.effects[0]] && t.result == CheckedFirst(respond(t.effects[0].call))
    ensures t.result.Ok? ==>
      && |t.effects| == 2
      && t.result.value == PublicUrl(RemixBucket, RemixOutputPath(modelName))
      && Stores(t.effects) == [Upload(RemixOutputPath(modelName), respond(t.effects[0].call).items[0])]
  {
    var c := RemixCall(pth, idx, referenceUrl, detectPitch(referenceUrl));
    var out := CheckedFirst(respond(c));
    if out.Raised? then Traced(Raised(out.error), [Predicted(c)])
    else
      var path := RemixOutputPath(modelName);
      Traced(Ok(PublicUrl(RemixBucket, path)), [Predicted(c), Stored(Upload(path, out.value))])
  }

  /** The output blob depends only on the model name: two successful runs for
      different models that share a name return the same URL, and after both
      the blob holds the later run's file, so the earlier caller's URL now
      serves the later model's audio. */
  lemma RemixLastRunWins(before: seq<Upload>, modelName: string,
                         pth1: string, idx1: string, referenceUrl1: string,
                         pth2: string, idx2: string, referenceUrl2: string,
                         respond: Call -> Reply, detectPitch: string -> real)
    requires RemixInferAudio(pth1, idx1, referenceUrl1, modelName, respond, detectPitch).result.Ok?
    requires RemixInferAudio(pth2, idx2, referenceUrl2, modelName, respond, detectPitch).result.Ok?
    ensures var first := RemixInferAudio(pth1, idx1, referenceUrl1, modelName, respond, detectPitch);
      var second := RemixInferAudio(pth2, idx2, referenceUrl2, modelName, respond, detectPitch);
      && first.result.value == second.result.value
      && Latest(before + Stores(first.effects) + Stores(second.effects), RemixOutputPath(modelName)) ==
         Some(respond(second.effects[0].call).items[0])
  {
    var second := RemixInferAudio(pth2, idx2, referenceUrl2, modelName, respond, detectPitch);
    var first := RemixInferAudio(pth1, idx1, referenceUrl1, modelName, respond, detectPitch);
    var u := Upload(RemixOutputPath(modelName), respond(second.effects[0].call).items[0]);
    assert Stores(second.effects) == [u];
    LatestAfterUpload(before + Stores(first.effects), u, RemixOutputPath(modelName));
  }
}
