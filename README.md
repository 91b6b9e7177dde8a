# huggingbass inference API — a verified model of its request flows

The service takes a trained voice model (an archive holding `.pth` weights and
a `.index` file) and a reference recording. It converts the reference into the
model's voice on a remote Gradio Space, stores the results in Google Cloud
Storage and records their URLs in MongoDB. This project models the control
logic of the three route modules that do this work:

- `routes/inference.py`:
  - `get_inferred_audio` checks the request body and starts a background job.
  - `process_inferred_audio` looks up the model and unpacks its archive. It
    then converts the reference once per pitch from -15 to 15 and writes the
    31 URLs back to the model record.
  - `unzip_model_files` picks the weights and index files by suffix.
  - `infer_audio` does one conversion and one upload.
- `routes/juice_vrse.py`:
  - `split_for_juice` runs a fixed four-step stem separation.
  - `infer_audio_juice_vrse` splits the vocal at silences, converts each chunk
    at its own detected pitch and concatenates the converted chunks.
  - `combine_song_components` overlays the result on the background.
  - `juice_vrse` composes the three.
- `routes/remix.py`:
  - The split route separates a track into two stems.
  - The remix route checks the request and fetches the model archive.
  - `infer_audio` converts a reference and stores the result.

Every external service is an oracle. Each is a function fixed for the run:

| Service | Model |
|---|---|
| Gradio Space | `Gradio.respond`, keyed by the full call |
| HTTP GET | `Web.respond` |
| Archive extraction | `unzip` |
| WAV decoding | `decodeWav` |
| Silence splitting | `splitOnSilence` |
| Pitch detection | `detectPitch` |
| Loading a converted file | `load` |
| pydub `overlay` | `overlay` |

State lives in logs and maps:

- the calls made (`Gradio.calls`);
- the uploads made, where the last write to a path wins (`Bucket.uploads`, `Latest`);
- the URLs fetched (`Web.fetched`);
- the local files exported (`Disk.files`);
- the model records (`ModelsCollection.docs`).

A Python exception is an `Outcome.Raised` carrying the exception that
propagates. Loops that stop at the first exception are specified through
`Steps.LeadingOk`, `Steps.Attempted` and `Steps.Collect`.

- `routes/inference.py` and `routes/juice_vrse.py` change state step by step.
  They are methods on the service objects, with loops proved against
  specification functions.
- `routes/remix.py` is early returns and straight-line calls. It is pure
  functions that return the result together with the trace of effects
  performed (`Remix.Traced`).

The model follows the code, including these behaviours of it:

- The archive's model files are looked for among its top-level names only;
  an archive holding a single folder fails whatever the folder holds
  (`Inference.NestedFolderNotSearched`).
- The 404 branch at `routes/inference.py:77-78` can never be taken: a
  joined path is never empty, and a variable that was never assigned raises
  `UnboundLocalError` first (`Inference.Resolve`).
- The pitch sweep runs over `range(-15, 16)`: 31 variants, -15 to 15
  (`Inference.SweepPitchOrder`).
- The pitch sweep does not look for an embedded error in a reply, unlike the
  juice-vrse and remix conversions (`Services.CheckedFirst`). Of the reply
  shapes the model distinguishes, the only one that raises in the sweep is
  a reply without a first item, at `result[0]`. Failures of the remote call
  itself are not modelled (see "Left out").
- The sweep and remix outputs are keyed by model NAME only, so two models
  with the same name overwrite each other, and both callers get the same URL
  (`Remix.RemixLastRunWins`). The juice-vrse outputs are keyed by fresh ids.
- `detect_pitch` returns a median frequency in Hz. The remix and juice-vrse
  conversions pass that value on unchanged as the pitch level.
- The declared task queue and thread pool are never used.

## Model

| member | source | states |
|---|---|---|
| Py.ObjectIdOf | routes/inference.py:38 | `ObjectId(v)`: `None` gives a fresh id that matches no record; a string gives a parsed id exactly when it is 24 hex digits, and the id is its lower-case form; any other string is invalid; a value that is neither `None` nor a string raises `TypeError` |
| Py.ObjectIdIgnoresCase | routes/inference.py:38 | two 24-hex-digit strings that differ only in letter case parse to the same id |
| Text.Join | routes/inference.py:73 | `os.path.join(dir, name)` ends with `name`, and starts with `dir` unless `name` is absolute |
| Text.ParseIntToString | routes/inference.py:104 | the decimal text of a pitch written into a blob path reads back as that pitch |
| Text.IntToStringInjective | routes/inference.py:104 | distinct integers have distinct decimal texts |
| Steps.LeadingOk | routes/juice_vrse.py:69-95 | the number of steps that returned before the first that raised: every earlier step returned, and the step at that position raised |
| Steps.CollectOk | routes/juice_vrse.py:68-95 | a loop that appends each step's value returns exactly when every step returned, with one value per step in step order |
| Steps.CollectRaised | routes/juice_vrse.py:92-93 | when it raises, it raises the first step's exception after running exactly the steps up to that one |
| Services.First | routes/inference.py:102 | `result[0]` raises `IndexError` exactly on an empty list and `KeyError` exactly on a dict; otherwise it returns the list's first item |
| Services.CheckedFirst | routes/juice_vrse.py:92-95 | a reply containing "error" raises, with `ValueError(result["error"])` for a dict; any other reply gives `result[0]` |
| Services.PublicUrlInjective | routes/inference.py:107 | within one bucket, distinct blob paths have distinct public URLs |
| Services.Latest | routes/inference.py:104-105 | a blob holds the file of the last upload to its path, or nothing if there was none |
| Services.LatestAfterUpload | routes/inference.py:104-105 | an upload replaces the content at its own path and leaves every other path unchanged |
| Services.LatestUnaffected | routes/inference.py:104-105 | uploads to other paths do not change a blob |
| Services.LatestIsLastWrite | routes/inference.py:104-105 | a blob holds what its last upload wrote, whatever uploads came before |
| Services.FindArtist | routes/inference.py:49 | `find_one` by Spotify id returns the first matching record, or nothing when no record matches |
| Services.Gradio.Predict | routes/inference.py:88-99 | one remote call, logged in call order, returns the Space's reply |
| Services.Bucket.UploadFromFile | routes/inference.py:103-107 | appends the upload, returns the blob's public URL, and the blob then holds the uploaded file |
| Services.Web.Get | routes/inference.py:44 | one GET, logged, returns what the URL serves |
| Services.Disk.Export | routes/juice_vrse.py:74 | writes the audio at the path and changes nothing else |
| Services.ModelsCollection.UpdateSet | routes/inference.py:63 | `$set` of the whole record replaces the stored record; an id that is not stored changes nothing |
| Inference.GetInferredAudio | routes/inference.py:25-34 | answers 400 exactly when `modelId` or `spotifyArtistId` is absent (presence, not truthiness); otherwise 200 and a job with both values |
| Inference.LastOfSlot | routes/inference.py:71-75 | the position of the last listed name going to a slot; every later name goes elsewhere; nothing exactly when no name qualifies |
| Inference.SuffixesExclusive | routes/inference.py:72-75 | no name ends in both ".pth" and ".index", so the `elif` never takes a name for both |
| Inference.ResolveSucceedsIff | routes/inference.py:71-80 | the scan returns a pair exactly when some top-level name ends in ".pth" and some ends in ".index"; otherwise `UnboundLocalError` |
| Inference.ResolvedPaths | routes/inference.py:71-75 | on success both slots were assigned; the weights path joins tmp_dir with the last listed name ending in ".pth" and the index path with the last ending in ".index"; these are different names, so the two paths differ and keep their suffixes |
| Inference.NestedFolderNotSearched | routes/inference.py:69-71 | an archive holding one folder fails to resolve, whatever the folder contains |
| Inference.UnzipModelFiles | routes/inference.py:66-80 | the loop with reassigned variables computes `ModelFiles`: `BadZipFile` for a non-archive, otherwise the scan's result |
| Inference.PitchPathInjective | routes/inference.py:104 | under one model name, distinct pitches are stored at distinct paths |
| Inference.SweepPitchOrder | routes/inference.py:57-59 | the sweep makes 31 calls to one Space; call k converts at pitch -15 + k, so the pitches strictly ascend; the calls differ in nothing but the pitch |
| Inference.SweepPathsDistinct | routes/inference.py:104 | no two iterations of one sweep upload to the same blob |
| Inference.SweepUrlsDistinct | routes/inference.py:57-60 | the collected URLs are pairwise distinct |
| Inference.SweepReadBack | routes/inference.py:57-60 | after the sweep's uploads, the blob for pitch -15 + k holds iteration k's output |
| Inference.InferAudio | routes/inference.py:83-107 | one conversion with the fixed parameters; on `result[0]` the file is uploaded under the model name and pitch and the URL returned; otherwise it raises without uploading |
| Inference.SweepIteration | routes/inference.py:58-59 | iteration k logs the call at pitch -15 + k; on `result[0]` it uploads iteration k's output and returns its URL, otherwise it raises without uploading |
| Inference.RunSweep | routes/inference.py:57-60 | calls for the pitches -15..k in order up to the first failure; uploads for the successful ones; the 31 URLs in pitch order, or the first exception |
| Inference.MissingModelFetchesNothing | routes/inference.py:38-40 | a missing model ends the job before any fetch |
| Inference.ReadyMeansResolved | routes/inference.py:38-55 | the sweep starts only for a stored model whose SECOND file URL unpacks to a pair, and an artist with a non-empty stem URL |
| Inference.ProcessInferredAudio | routes/inference.py:37-63 | on each early exit, nothing but the fetch happens; otherwise the sweep runs, and on full success only the record's `inferredAudioUrls` is replaced, by exactly the 31 URLs; on an exception the records are unchanged |
| JuiceVrse.ChunkPathInjective | routes/juice_vrse.py:70-72 | distinct chunk indices are exported to distinct files |
| JuiceVrse.ChunkCallsConvertEachChunk | routes/juice_vrse.py:75-91 | call k sends chunk k's file at the pitch detected on chunk k; the Space, the model files, the pitch algorithm and the four tuning constants are the same on every call |
| JuiceVrse.ExportAllReadBack | routes/juice_vrse.py:69-74 | after the exports, each chunk's file still holds that chunk |
| JuiceVrse.ConvertChunk | routes/juice_vrse.py:70-93 | iteration i exports chunk i to its file, logs the conversion of that file at the chunk's own pitch, and gives the checked `result[0]` |
| JuiceVrse.InferChunks | routes/juice_vrse.py:68-95 | one call per chunk in index order, up to the first failure; exports up to that chunk; the collected `result[0]` values or the first exception |
| JuiceVrse.ChunkResultsInOrder | routes/juice_vrse.py:68-95 | a completed loop holds one entry per chunk, entry k being `result[0]` of chunk k's error-free reply |
| JuiceVrse.FirstErrorStopsLoop | routes/juice_vrse.py:92-93 | the first reply carrying "error" raises its exception, and no later chunk is converted |
| JuiceVrse.ConcatAllAppend | routes/juice_vrse.py:98-100 | concatenating a list in two pieces gives the concatenation of the two results |
| JuiceVrse.ConcatAllPlacesPart | routes/juice_vrse.py:98-100 | chunk k appears unchanged in the combined audio, right after chunks 0..k-1 |
| JuiceVrse.CombineChunks | routes/juice_vrse.py:97-100 | the `+=` loop from an empty segment computes the in-order concatenation; with no chunks it is empty |
| JuiceVrse.InferAudioJuiceVrse | routes/juice_vrse.py:47-115 | its result and new state are `InferStage` of the old state: an HTTP error on the reference raises before any call; an error reply stops the loop, and nothing is then combined or uploaded; on success the concatenation is exported and uploaded under the fresh id |
| JuiceVrse.InferStageOk | routes/juice_vrse.py:47-115 | when it returns, the reference downloaded, every chunk was converted, and the only upload is /tmp/combined.wav under the fresh id |
| JuiceVrse.StemPathsSeparateRuns | routes/juice_vrse.py:132 | runs with different fresh ids never share a stem blob |
| JuiceVrse.SeparateAndStore | routes/juice_vrse.py:123-133 | separation i is logged; on `result[0]` it is uploaded as stem i and its URL returned; otherwise it raises without uploading |
| JuiceVrse.SplitForJuice | routes/juice_vrse.py:118-174 | its result and new state are `SplitStage` of the old state: four separations in the fixed order (vocal, background, the vocal of the uploaded all-vocals stem, the dereverbed vocal of the uploaded primary stem), all under one id, up to the first exception |
| JuiceVrse.SplitStageOk | routes/juice_vrse.py:118-174 | when it returns, it made all four separations, stored the four stems in order, and returns the dereverbed vocal and background URLs; nothing is downloaded or exported |
| JuiceVrse.CombineSongComponents | routes/juice_vrse.py:177-207 | its result and new state are `CombineStage` of the old state: an HTTP error on either download raises before any export or upload; otherwise the overlay is exported and uploaded under a fresh id |
| JuiceVrse.CombineStageOk | routes/juice_vrse.py:177-207 | when it returns, both stems were downloaded, the mix file holds their overlay, and the mix blob holds the mix file |
| JuiceVrse.JuiceVrse | routes/juice_vrse.py:27-44 | its response and its whole new state (calls, downloads, local files, uploads) are `JuiceVrseRun` of the old state: the three stages in order, each from the state the previous one left, the first exception ending the request |
| JuiceVrse.JuiceVrseSucceedsIff | routes/juice_vrse.py:27-44 | the request succeeds exactly when all four separations return, the dereverbed vocal downloads, every chunk converts without error, and the converted vocal and the background download |
| JuiceVrse.JuiceVrseSuccess | routes/juice_vrse.py:27-44 | on success: 200 with the mix URL; the separations then one conversion per chunk; downloads of the dereverbed vocal, the converted vocal and the background, in order; uploads of the four stems, the converted vocal and the mix, in order; the mix blob holds the overlay of the downloaded background on the downloaded converted vocal |
| JuiceVrse.JuiceVrseSplitFailure | routes/juice_vrse.py:32 | a failed separation raises its exception before any download, export or conversion: only a prefix of the separations was called |
| JuiceVrse.MixBlobApart | routes/juice_vrse.py:204 | the mix blob's path is never a stem path or the converted-vocal path |
| JuiceVrse.UploadsElsewhereKeepBlob | routes/juice_vrse.py:204-205 | uploads appended to other paths leave a blob as it was |
| JuiceVrse.JuiceVrseFailureStoresNoMix | routes/juice_vrse.py:27-44 | a request that raises only appended uploads, none of them to the mix blob, which is therefore as it was |
| Remix.SplitForRemix | routes/remix.py:49-85 | 400 exactly when `trackUrl` or `trackId` is falsy, with no effect; otherwise, if the first `result[0]` raises, that exception with the one call as the only effect; otherwise two identical "vocal" separations, then uploads to `vocal.wav` and `background.wav` under the track id, and 200 with both URLs in the huggingbass bucket |
| Remix.SplitForRemixBackgroundIsVocal | routes/remix.py:59-83 | after a successful split, the "background" blob holds the same file as the vocal blob |
| Remix.RemixStemPathsSeparateTracks | routes/remix.py:78-82 | different track ids never share a stem blob |
| Remix.RemixAudio | routes/remix.py:88-120 | 400 exactly when `modelId` or `referenceUrl` is falsy; a non-string id raises `TypeError`, a malformed one `InvalidId`; 404 when no record matches and `IndexError` when the record has no file URL, all before any fetch; the only effect is fetching `fileUrls[0]`, after which it raises `BadZipFile` for a non-archive and `TypeError` otherwise; no conversion or upload is ever performed |
| Remix.RemixInferAudio | routes/remix.py:123-150 | the first effect is the conversion of the reference at its detected pitch; it returns exactly when the reply has no error and a first item, with exactly two effects, the second storing that item at the model-name path, and its URL; otherwise it raises with the conversion as the only effect |
| Remix.RemixLastRunWins | routes/remix.py:146-147 | two successful runs for different models with the same name return the same URL, and afterwards the blob holds the later run's file |

## Left out

- `detect_pitch` (librosa pitch tracking and median gating) is the oracle `detectPitch`. Floating-point numerics are not modelled.
- routes/comparison.py, routes/extraction.py, app.py and db.py are not part of this model. They are wiring and floating-point scoring.
- Gradio `Client.predict`, `requests.get`, blob uploads, `zipfile`, `tempfile`, pydub's `split_on_silence`, `from_wav`, `from_file` and `overlay` are oracles. The files behind local paths are named, not their bytes.
- A remote Space is modelled as a deterministic function of the request. `Remix.SplitForRemixBackgroundIsVocal` relies on this: two identical separation requests give the same stem.
- `threading.Thread` in `get_inferred_audio` is left out: the job's arguments are returned instead. The unused task queue and thread pool in routes/remix.py are left out too.
- `ObjectId()` fresh ids are parameters (`splitId`, `inferId`, `combineId`, `randomId`). `ObjectId(bytes)` is not modelled.
- Request bodies hold null, booleans, integers and strings only. JSON floats, lists and objects are not modelled.
- A body value is passed on as `str(v)`. This matches strings, which is what the routes receive.
- `audioStemUrl` is modelled as a string.
- `Remix.RemixAudio`: the call `unzip_model_files(zip_ref, model_id)` at routes/remix.py:109 passes one argument too many, so the route raises `TypeError` after fetching the archive. It is modelled as written and not corrected. As a result, the route never reaches `infer_audio`.
- The request body is taken to be a JSON object (`map<string, Json>`). A `null`, list, string or number body behaves otherwise in the views: the `in` test of `routes/inference.py:28` raises `TypeError` on `null`, tests for a substring on a string and for membership on a list, and `data.get` (`routes/remix.py:52`, `routes/remix.py:91`, `routes/juice_vrse.py:30`) raises `AttributeError` on anything but an object.
- No oracle raises. The model has no outcome for a Gradio `predict` that fails (a Space error or timeout raised by the client), a `file()` argument that is neither a URL nor an existing path (`ValueError`), a `requests` connection error or timeout, an `open` of a missing output file, or a failed upload. Each would propagate out of the view like the exceptions that are modelled.
- `Services.PublicUrl`: leaves out the percent-quoting of the blob name that the storage client applies. For names with characters outside the unreserved set, the real URL differs from the modelled one.
- `Py.ObjectIdOf`: a 24-character string with whitespace that `bytes.fromhex` skips is treated as invalid. bson would build an id from the shorter byte string.
- `JuiceVrse.JuiceVrse`: a GET of a bucket's public URL is answered by the `Web.respond` oracle, which is not tied to the file uploaded to that blob. The model states which URLs are downloaded and that the mix is the overlay of what they serve. It does not state that they serve the separated and converted audio.
- The shared `/tmp/combined.wav` and `/tmp/chunk{i}.wav` files can race between concurrent requests. Concurrency is not modelled.
- Temporary files are never deleted, and the model does not track them.
- Export formats, sample rates and the segment metadata pydub keeps are not modelled.
