/** Video generation: the per-model request fields, the single- and
    array-shaped outputs, flat per-model pricing, and a batch over the
    requested models with its totals. */
module Img2Vid {
  import opened Common
  import opened Provider

  datatype VideoModel = VideoModel(identifier: Option<string>, version: Option<string>,
                                   costUsd: real, outputType: string, kind: string)

  const ImageToVideo: string := "image-to-video"
  const TextToVideo: string := "text-to-video"

  /** `VIDEO_MODEL_REGISTRY`. */
  const Registry: map<string, VideoModel> := map[
    "wan-i2v-fast" := VideoModel(Some("wan-video/wan-2.2-i2v-fast"), None, 0.05, "single", ImageToVideo),
    "ltx-video" := VideoModel(None,
      Some("lightricks/ltx-video:8c47da666861d081eeb4d1261853087de23923a268a69b63febdf5dc1dee08e4"),
      0.08, "array", TextToVideo)
  ]

  /** `VideoGenerationRequest`; `models` is `None` when the request leaves the
      field out. */
  datatype VideoRequest = VideoRequest(
    prompt: string,
    models: Option<seq<string>>,
    image: Option<string>,
    aspectRatio: Option<string>,
    negativePrompt: Option<string>,
    duration: Option<int>,
    fps: Option<int>,
    motionBucketId: Option<int>)

  datatype VideoResult = VideoResult(modelName: string, videoUrls: seq<string>, costUsd: real,
                                     status: Status, errorMessage: Option<string>)

  datatype VideoResponse = VideoResponse(results: seq<VideoResult>, totalCostUsd: real,
                                         totalModels: nat, successful: nat, failed: nat)

  /** The models a request runs: those it lists, or `["ltx-video"]`, the
      text-to-video model, when it lists none. */
  function Models(req: VideoRequest): (ms: seq<string>)
    ensures req.models.Some? ==> ms == req.models.value
    ensures req.models.None? ==> ms == ["ltx-video"] && ms[0] in Registry && Registry[ms[0]].kind == TextToVideo
  {
    if req.models.Some? then req.models.value else ["ltx-video"]
  }

  /** The input dictionary for a known model: always the prompt; the image
      only for an image-to-video model and only when one was given; each
      optional field only when it is set to a truthy value. */
  function VideoInput(config: VideoModel, req: VideoRequest): (m: Input)
    ensures "prompt" in m && m["prompt"] == Str(req.prompt)
    ensures "image" in m <==> Truthy(req.image) && config.kind == ImageToVideo
    ensures "image" in m ==> m["image"] == Str(req.image.value)
    ensures "aspect_ratio" in m <==> Truthy(req.aspectRatio)
    ensures "aspect_ratio" in m ==> m["aspect_ratio"] == Str(req.aspectRatio.value)
    ensures "negative_prompt" in m <==> Truthy(req.negativePrompt)
    ensures "negative_prompt" in m ==> m["negative_prompt"] == Str(req.negativePrompt.value)
    ensures "duration" in m <==> TruthyInt(req.duration)
    ensures "duration" in m ==> m["duration"] == Num(req.duration.value)
    ensures "fps" in m <==> TruthyInt(req.fps)
    ensures "fps" in m ==> m["fps"] == Num(req.fps.value)
    ensures "motion_bucket_id" in m <==> TruthyInt(req.motionBucketId)
    ensures "motion_bucket_id" in m ==> m["motion_bucket_id"] == Num(req.motionBucketId.value)
    ensures m.Keys <= {"prompt", "image", "aspect_ratio", "negative_prompt", "duration", "fps",
                       "motion_bucket_id"}
  {
    var m0: Input := map["prompt" := Str(req.prompt)];
    var m1 := if Truthy(req.image) && config.kind == ImageToVideo
      then m0["image" := Str(req.image.value)] else m0;
    var m2 := if Truthy(req.aspectRatio) then m1["aspect_ratio" := Str(req.aspectRatio.value)] else m1;
    var m3 := if Truthy(req.negativePrompt)
      then m2["negative_prompt" := Str(req.negativePrompt.value)] else m2;
    var m4 := if TruthyInt(req.duration) then m3["duration" := Num(req.duration.value)] else m3;
    var m5 := if TruthyInt(req.fps) then m4["fps" := Num(req.fps.value)] else m4;
    if TruthyInt(req.motionBucketId) then m5["motion_bucket_id" := Num(req.motionBucketId.value)] else m5
  }

  /** Builds the input dictionary key by key, as the source does. */
  method BuildVideoInput(config: VideoModel, req: VideoRequest) returns (input: Input)
    ensures input == VideoInput(config, req)
  {
    input := map["prompt" := Str(req.prompt)];
    if Truthy(req.image) && config.kind == ImageToVideo {
      input := input["image" := Str(req.image.value)];
    }
    if Truthy(req.aspectRatio) {
      input := input["aspect_ratio" := Str(req.aspectRatio.value)];
    }
    if Truthy(req.negativePrompt) {
      input := input["negative_prompt" := Str(req.negativePrompt.value)];
    }
    if TruthyInt(req.duration) {
      input := input["duration" := Num(req.duration.value)];
    }
    if TruthyInt(req.fps) {
      input := input["fps" := Num(req.fps.value)];
    }
    if TruthyInt(req.motionBucketId) {
      input := input["motion_bucket_id" := Num(req.motionBucketId.value)];
    }
  }

  /** The model reference passed to the provider: every registered model has
      a non-empty one, its version when it has one, else its identifier. */
  function VideoRef(name: string): (r: Option<string>)
    requires name in Registry
    ensures r.Some? && r.value != ""
    ensures r == if Registry[name].version.Some? then Registry[name].version else Registry[name].identifier
  {
    ModelRef(Registry[name].version, Registry[name].identifier)
  }

  /** The provider call a known model makes for a request. */
  function VideoCall(name: string, req: VideoRequest, run: Runner): Call
    requires name in Registry
  {
    run(VideoRef(name), VideoInput(Registry[name], req))
  }

  /** What a model is charged, success or failure: its registry cost, or 0.0
      when it is not in the registry. */
  function Charge(name: string): (c: real)
    ensures name in Registry ==> c == Registry[name].costUsd
    ensures name !in Registry ==> c == 0.0
    ensures 0.0 <= c
  {
    if name in Registry then Registry[name].costUsd else 0.0
  }

  function UnknownModelMessage(name: string): string
  {
    "Video model '" + name + "' not found"
  }

  /** `run_single_video_model_inference`. */
  method RunSingleVideo(name: string, req: VideoRequest, run: Runner) returns (r: VideoResult)
    ensures r.modelName == name
    ensures name !in Registry ==>
      r == VideoResult(name, [], 0.0, Error, Some(UnknownModelMessage(name)))
    ensures r.costUsd == Charge(name)
    ensures r.status == Error ==> r.videoUrls == [] && r.errorMessage.Some?
    ensures r.status == Success ==> r.errorMessage.None?
    ensures r.status == Success <==> Succeeds(name, req, run)
    ensures r.status == Success && Registry[name].outputType == "single" ==>
      r.videoUrls == SingleUrls(VideoCall(name, req, run).output) && |r.videoUrls| == 1
    ensures r.status == Success && Registry[name].outputType != "single" ==>
      var items := Iterate(VideoCall(name, req, run).output).value;
      |r.videoUrls| == |items| && forall i :: 0 <= i < |items| ==> r.videoUrls[i] == ItemUrl(items[i])
    ensures r.status == Success ==> r.videoUrls == ModelUrls(name, VideoCall(name, req, run).output)
    ensures name in Registry && VideoCall(name, req, run).Raised? ==>
      r.errorMessage == Some(VideoCall(name, req, run).message)
  {
    if name !in Registry {
      return VideoResult(name, [], 0.0, Error, Some(UnknownModelMessage(name)));
    }
    var config := Registry[name];
    var input := BuildVideoInput(config, req);
    var modelRef := ModelRef(config.version, config.identifier);
    var call := run(modelRef, input);
    // The except branch looks the cost up again, defaulting to 0.0.
    var failureCost := if name in Registry then Registry[name].costUsd else 0.0;
    match call {
      case Raised(message) =>
        r := VideoResult(name, [], failureCost, Error, Some(message));
      case Returned(output) =>
        if config.outputType == "single" {
          var videoUrls := SingleUrls(output);
          r := VideoResult(name, videoUrls, config.costUsd, Success, None);
        } else {
          var items := Iterate(output);
          if items.None? {
            r := VideoResult(name, [], failureCost, Error, Some(NotIterable));
          } else {
            var videoUrls := CollectUrls(items.value);
            r := VideoResult(name, videoUrls, config.costUsd, Success, None);
          }
        }
    }
  }

  function Costs(rs: seq<VideoResult>): seq<real>
  {
    seq(|rs|, i requires 0 <= i < |rs| => rs[i].costUsd)
  }

  function Statuses(rs: seq<VideoResult>): seq<Status>
  {
    seq(|rs|, i requires 0 <= i < |rs| => rs[i].status)
  }

  /** The charge of each requested model, in request order. */
  function Charges(models: seq<string>): seq<real>
  {
    seq(|models|, i requires 0 <= i < |models| => Charge(models[i]))
  }

  /** Whether a model's run succeeds: it is registered, the provider returns,
      and an array-shaped output can be iterated. */
  predicate Succeeds(name: string, req: VideoRequest, run: Runner)
  {
    name in Registry && VideoCall(name, req, run).Returned? &&
    (Registry[name].outputType == "single" || Iterate(VideoCall(name, req, run).output).Some?)
  }

  /** The URLs a successful run reports: one for a single-output model, one
      per item, in order, for an array-output model whose output iterates. */
  function ModelUrls(name: string, output: Output): (urls: seq<string>)
    requires name in Registry
    ensures Registry[name].outputType == "single" ==> urls == SingleUrls(output) && |urls| == 1
    ensures Registry[name].outputType != "single" && Iterate(output).Some? ==>
      |urls| == |Iterate(output).value| &&
      forall i :: 0 <= i < |urls| ==> urls[i] == ItemUrl(Iterate(output).value[i])
  {
    if Registry[name].outputType == "single" then SingleUrls(output)
    else if Iterate(output).None? then []
    else seq(|Iterate(output).value|, i requires 0 <= i < |Iterate(output).value| => ItemUrl(Iterate(output).value[i]))
  }

  /** A request that lists no models is charged the text-to-video model's
      flat 0.08 dollars. */
  lemma DefaultRequestCost(req: VideoRequest)
    requires req.models.None?
    ensures Sum(Charges(Models(req))) == 0.08
  {
    assert Charges(["ltx-video"])[..0] == [];
  }

  /** `run_video_inference`: one result per requested model (the default one
      when none is listed), in request order, and the totals over those results. */
  method RunVideo(req: VideoRequest, run: Runner) returns (resp: VideoResponse)
    ensures |resp.results| == |Models(req)| == resp.totalModels
    ensures forall i :: 0 <= i < |Models(req)| ==>
      resp.results[i].modelName == Models(req)[i] && resp.results[i].costUsd == Charge(Models(req)[i]) &&
      (resp.results[i].status == Success <==> Succeeds(Models(req)[i], req, run)) &&
      (resp.results[i].status == Error ==> resp.results[i].videoUrls == []) &&
      (resp.results[i].status == Success ==>
        resp.results[i].videoUrls == ModelUrls(Models(req)[i], VideoCall(Models(req)[i], req, run).output))
    ensures resp.successful == Count(Statuses(resp.results), Success)
    ensures resp.failed == Count(Statuses(resp.results), Error)
    ensures resp.successful + resp.failed == resp.totalModels
    ensures resp.totalCostUsd == Sum(Costs(resp.results)) == Sum(Charges(Models(req)))
    ensures 0.0 <= resp.totalCostUsd
  {
    var ms := Models(req);
    var results: seq<VideoResult> := [];
    var k := 0;
    while k < |ms|
      invariant 0 <= k <= |ms|
      invariant |results| == k
      invariant forall i :: 0 <= i < k ==>
        results[i].modelName == ms[i] && results[i].costUsd == Charge(ms[i]) &&
        (results[i].status == Success <==> Succeeds(ms[i], req, run)) &&
        (results[i].status == Error ==> results[i].videoUrls == []) &&
        (results[i].status == Success ==> results[i].videoUrls == ModelUrls(ms[i], VideoCall(ms[i], req, run).output))
    {
      var result := RunSingleVideo(ms[k], req, run);
      results := results + [result];
      k := k + 1;
    }
    var totalCost := Sum(Costs(results));
    var successful := Count(Statuses(results), Success);
    var failed := Count(Statuses(results), Error);
    CountsPartition(Statuses(results));
    assert Costs(results) == Charges(ms);
    SumNonNegative(Charges(ms));
    resp := VideoResponse(results, totalCost, |results|, successful, failed);
  }
}
