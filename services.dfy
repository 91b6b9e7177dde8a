/**
 * The external services the routes call, each reduced to what the routes see
 * of it: the remote Gradio Spaces (a deterministic function of the request,
 * with a log of the calls made), the Cloud Storage buckets (a log of uploads,
 * the latest upload to a path being its content), HTTP GET, the local disk
 * that audio is exported to, and the collection of model records.
 */
module Services {
  import opened Wrappers
  import opened Text
  import opened Py

  /** Decoded audio as samples. */
  type Audio = seq<int>

  /** An argument of Client.predict: wrapped in gradio_client.file(...) or passed as plain text. */
  datatype Arg = FileArg(path: string) | TextArg(text: string)

  /** Keyword arguments of the voice-conversion endpoint "/run". */
  datatype ConversionRequest = ConversionRequest(
    audioFiles: seq<Arg>,      // audio_files
    model: Arg,                // file_m: the weights (.pth)
    pitchAlgorithm: string,    // pitch_alg
    pitchLevel: real,          // pitch_lvl
    index: Arg,                // file_index
    indexInfluence: real,      // index_inf
    filterRadius: int,         // r_m_f
    envelopeRatio: real,       // e_r
    breathProtection: real)    // c_b_p

  /** Keyword arguments of the stem-separation endpoint "/sound_separate". */
  datatype SeparationRequest = SeparationRequest(media: Arg, stem: string, main: bool, dereverb: bool)

  datatype Request = Run(conversion: ConversionRequest) | SoundSeparate(separation: SeparationRequest)

  /** One Client(space).predict(...) call. */
  datatype Call = Call(space: string, request: Request)

  /** The call is a conversion at the given pitch level. */
  predicate ConvertsAt(c: Call, pitch: real) {
    c.request.Run? && c.request.conversion.pitchLevel == pitch
  }

  /** What predict returns: a list of local output files, or a dict. */
  datatype Reply = Items(items: seq<string>) | Fields(fields: map<string, string>)

  /** `"error" in result`: an element of a list, a key of a dict. */
  predicate HasError(r: Reply) {
    match r
    case Items(items) => "error" in items
    case Fields(fields) => "error" in fields
  }

  /** `result[0]`. */
  function First(r: Reply): (o: Outcome<string>)
    ensures o == Raised(IndexError) <==> r == Items([])
    ensures o == Raised(KeyError) <==> r.Fields?
    ensures o.Ok? <==> r.Items? && |r.items| > 0
    ensures o.Ok? ==> o.value == r.items[0]
  {
    match r
    case Items(items) => if |items| > 0 then Ok(items[0]) else Raised(IndexError)
    case Fields(_) => Raised(KeyError)
  }

  /** `if "error" in result: raise ValueError(result["error"])`, then `result[0]`. */
  function CheckedFirst(r: Reply): (o: Outcome<string>)
    ensures HasError(r) ==> o.Raised?
    ensures r.Fields? && "error" in r.fields ==> o == Raised(ValueError(r.fields["error"]))
    ensures r.Items? && HasError(r) ==> o == Raised(TypeError)
    ensures !HasError(r) ==> o == First(r)
  {
    if HasError(r) then
      match r
      case Items(_) => Raised(TypeError)
      case Fields(fields) => Raised(ValueError(fields["error"]))
    else First(r)
  }

  /** One blob.upload_from_file: the blob path and the local file uploaded. */
  datatype Upload = Upload(path: string, source: string)

  /** blob.public_url for a blob of a bucket. */
  function PublicUrl(bucket: string, path: string): string {
    "https://storage.googleapis.com/" + bucket + "/" + path
  }

  /** Within one bucket, distinct blob paths have distinct public URLs. */
  lemma PublicUrlInjective(bucket: string, p: string, q: string)
    requires PublicUrl(bucket, p) == PublicUrl(bucket, q)
    ensures p == q
  {
    PrefixCancel("https://storage.googleapis.com/" + bucket + "/", p, q);
  }

  /** The content of a blob after a sequence of uploads: the last write wins. */
  function Latest(uploads: seq<Upload>, path: string): (r: Option<string>)
    ensures r.None? <==> forall k :: 0 <= k < |uploads| ==> uploads[k].path != path
    ensures r.Some? ==> exists k :: 0 <= k < |uploads| && uploads[k] == Upload(path, r.value) &&
                                    forall j :: k < j < |uploads| ==> uploads[j].path != path
  {
    if uploads == [] then None
    else if uploads[|uploads| - 1].path == path then Some(uploads[|uploads| - 1].source)
    else Latest(uploads[..|uploads| - 1], path)
  }

  /** An upload replaces the content at its own path and leaves every other path alone. */
  lemma {:induction false} LatestAfterUpload(uploads: seq<Upload>, u: Upload, path: string)
    ensures Latest(uploads + [u], path) == if path == u.path then Some(u.source) else Latest(uploads, path)
  {
    assert (uploads + [u])[..|uploads|] == uploads;
  }

  /** Uploads to other paths do not disturb a blob. */
  lemma {:induction false} LatestUnaffected(uploads: seq<Upload>, later: seq<Upload>, path: string)
    requires forall k :: 0 <= k < |later| ==> later[k].path != path
    ensures Latest(uploads + later, path) == Latest(uploads, path)
    decreases |later|
  {
    if later != [] {
      var front := later[..|later| - 1];
      assert uploads + later == (uploads + front) + [later[|later| - 1]];
      LatestAfterUpload(uploads + front, later[|later| - 1], path);
      LatestUnaffected(uploads, front, path);
    } else {
      assert uploads + later == uploads;
    }
  }

  /** A blob holds what its last upload wrote, whatever came before. */
  lemma LatestIsLastWrite(before: seq<Upload>, uploads: seq<Upload>, k: nat, path: string)
    requires k < |uploads| && uploads[k].path == path
    requires forall j :: k < j < |uploads| ==> uploads[j].path != path
    ensures Latest(before + uploads, path) == Some(uploads[k].source)
  {
    var front, back := before + uploads[..k], uploads[k + 1..];
    assert before + uploads == (front + [uploads[k]]) + back;
    assert forall i :: 0 <= i < |back| ==> back[i] == uploads[k + 1 + i];
    LatestUnaffected(front + [uploads[k]], back, path);
    LatestAfterUpload(front, uploads[k], path);
  }

  datatype HttpResponse = HttpResponse(status: int, content: string)

  /** The statuses for which response.raise_for_status() raises. */
  predicate IsHttpError(r: HttpResponse) {
    400 <= r.status < 600
  }

  /** A record of the models collection. */
  datatype ModelDoc = ModelDoc(name: string, fileUrls: seq<string>, inferredAudioUrls: Option<seq<string>>)

  /** A record of the reference-artists collection. */
  datatype ArtistDoc = ArtistDoc(spotifyArtistId: Json, audioStemUrl: string)

  /** reference_artists_collection.find_one({'spotifyArtistId': id}): the first matching record. */
  function FindArtist(artists: seq<ArtistDoc>, id: Json): (r: Option<ArtistDoc>)
    ensures r.None? <==> forall k :: 0 <= k < |artists| ==> artists[k].spotifyArtistId != id
    ensures r.Some? ==> exists k :: 0 <= k < |artists| && artists[k] == r.value && r.value.spotifyArtistId == id &&
                                    forall j :: 0 <= j < k ==> artists[j].spotifyArtistId != id
  {
    if artists == [] then None
    else if artists[0].spotifyArtistId == id then Some(artists[0])
    else
      var r := FindArtist(artists[1..], id);
      assert forall k :: 1 <= k < |artists| ==> artists[k] == artists[1..][k - 1];
      r
  }

  /** The remote inference service; `respond` is what each Space answers. */
  class Gradio {
    const respond: Call -> Reply
    var calls: seq<Call>

    constructor (respond: Call -> Reply)
      ensures this.respond == respond && calls == []
    {
      this.respond := respond;
      calls := [];
    }

    /** Client(space).predict(...), blocking until the Space answers. */
    method Predict(c: Call) returns (r: Reply)
      modifies this
      ensures calls == old(calls) + [c]
      ensures r == respond(c)
    {
      calls := calls + [c];
      r := respond(c);
    }
  }

  /** A Cloud Storage bucket. */
  class Bucket {
    const name: string
    var uploads: seq<Upload>

    constructor (name: string)
      ensures this.name == name && uploads == []
    {
      this.name := name;
      uploads := [];
    }

    function Current(path: string): Option<string>
      reads this
    {
      Latest(uploads, path)
    }

    /** bucket.blob(path).upload_from_file(open(source)), then blob.public_url. */
    method UploadFromFile(path: string, source: string) returns (url: string)
      modifies this
      ensures uploads == old(uploads) + [Upload(path, source)]
      ensures url == PublicUrl(name, path)
      ensures Current(path) == Some(source)
    {
      LatestAfterUpload(uploads, Upload(path, source), path);
      uploads := uploads + [Upload(path, source)];
      url := PublicUrl(name, path);
    }
  }

  /** requests.get; `respond` is what each URL serves. */
  class Web {
    const respond: string -> HttpResponse
    var fetched: seq<string>

    constructor (respond: string -> HttpResponse)
      ensures this.respond == respond && fetched == []
    {
      this.respond := respond;
      fetched := [];
    }

    method Get(url: string) returns (r: HttpResponse)
      modifies this
      ensures fetched == old(fetched) + [url]
      ensures r == respond(url)
    {
      fetched := fetched + [url];
      r := respond(url);
    }
  }

  /** The local file system, as the audio exported to each path. */
  class Disk {
    var files: map<string, Audio>

    constructor ()
      ensures files == map[]
    {
      files := map[];
    }

    /** AudioSegment.export(path, format="wav"). */
    method Export(path: string, audio: Audio)
      modifies this
      ensures files == old(files)[path := audio]
    {
      files := files[path := audio];
    }
  }

  /** The models collection, keyed by the hex form of each record's _id. */
  class ModelsCollection {
    var docs: map<string, ModelDoc>

    constructor (docs: map<string, ModelDoc>)
      ensures this.docs == docs
    {
      this.docs := docs;
    }

    /** find_one({'_id': ObjectId(value)}); a freshly generated id matches no record. */
    function FindOne(id: ObjectIdArg): (r: Option<ModelDoc>)
      reads this
      ensures r.Some? <==> id.ParsedId? && id.hex in docs
      ensures r.Some? ==> r.value == docs[id.hex]
    {
      if id.ParsedId? && id.hex in docs then Some(docs[id.hex]) else None
    }

    /** update_one({'_id': id}, {'$set': doc}): every field of doc is written; no upsert. */
    method UpdateSet(id: string, doc: ModelDoc)
      modifies this
      ensures docs == if id in old(docs) then old(docs)[id := doc] else old(docs)
    {
      if id in docs {
        docs := docs[id := doc];
      }
    }
  }
}
