/** Text-to-speech generation: per-character pricing, the per-model request
    fields, and a batch that runs every requested model and totals the cost. */
module Tts {
  import opened Common
  import opened Provider

  datatype TtsModel = TtsModel(identifier: Option<string>, version: Option<string>,
                               costPer1000: real, outputType: string, outputFormat: string)

  const Minimax: string := "minimax-speech-turbo"
  const Chatterbox: string := "chatterbox"
  const Kokoro: string := "kokoro-82m"

  /** `TTS_MODEL_REGISTRY`. */
  const Registry: map<string, TtsModel> := map[
    Minimax := TtsModel(Some("minimax/speech-02-turbo"), None, 0.06, "single", "mp3"),
    Chatterbox := TtsModel(Some("resemble-ai/chatterbox"), None, 0.025, "single", "wav"),
    Kokoro := TtsModel(None,
      Some("jaaari/kokoro-82m:f559560eb822dc509045f3921a1921234918b91739db4bf3daab2169b71c7a13"),
      0.01, "single", "wav")
  ]

  /** `TTSRequest`: the text, the models to run (`None` when the request
      leaves the field out), and the optional per-model fields. */
  datatype TtsRequest = TtsRequest(
    text: string,
    models: Option<seq<string>>,
    voice: Option<string>,
    voiceId: Option<string>,
    emotion: Option<string>,
    languageBoost: Option<string>,
    englishNormalization: Option<bool>,
    prompt: Option<string>)

  datatype TtsResult = TtsResult(modelName: string, audioUrls: seq<string>, costUsd: real,
                                 tokensUsed: nat, status: Status, errorMessage: Option<string>)

  datatype TtsResponse = TtsResponse(results: seq<TtsResult>, totalCostUsd: real, totalModels: nat,
                                     successful: nat, failed: nat, totalTokens: nat)

  /** The models a request runs: those it lists, or the cheapest one,
      `["kokoro-82m"]`, when it lists none. */
  function Models(req: TtsRequest): (ms: seq<string>)
    ensures req.models.Some? ==> ms == req.models.value
    ensures req.models.None? ==> ms == [Kokoro] && Kokoro in Registry
  {
    if req.models.Some? then req.models.value else [Kokoro]
  }

  /** One character counts as one token: never more tokens than the UTF-16
      units a browser counts, and exactly as many when the text has no
      character above U+FFFF. */
  function EstimateTokens(text: string): (n: nat)
    ensures n == |text|
    ensures n <= Utf16Length(text)
    ensures (forall i :: 0 <= i < |text| ==> !Astral(text[i])) ==> n == Utf16Length(text)
  {
    |text|
  }

  /** `(cost_usd, token_count)` for running a model on a text: nothing for an
      unknown model, otherwise the text's length in thousands of characters
      times the model's rate. */
  function CalculateTtsCost(name: string, text: string): (r: (real, nat))
    ensures name !in Registry ==> r == (0.0, 0)
    ensures name in Registry ==> r.1 == |text|
    ensures name in Registry ==> r.0 == (|text| as real / 1000.0) * Registry[name].costPer1000
    ensures 0.0 <= r.0
  {
    if name !in Registry then (0.0, 0)
    else
      var tokens := EstimateTokens(text);
      ((tokens as real / 1000.0) * Registry[name].costPer1000, tokens)
  }

  /** The cost grows with the length of the text. */
  lemma TtsCostMonotone(name: string, shorter: string, longer: string)
    requires |shorter| <= |longer|
    ensures CalculateTtsCost(name, shorter).0 <= CalculateTtsCost(name, longer).0
  {
    if name in Registry {
      var rate := Registry[name].costPer1000;
      assert 0.0 <= rate;
      var a, b := |shorter| as real / 1000.0, |longer| as real / 1000.0;
      assert a <= b;
      assert a * rate <= b * rate;
    }
  }

  /** The input dictionary `run_single_tts_inference` builds for a known model:
      chatterbox takes `prompt` (the request's prompt, else its text), every
      other model takes `text`; minimax alone gets its optional fields, and
      kokoro alone gets `voice`. */
  function TtsInput(name: string, req: TtsRequest): (m: Input)
    ensures "prompt" in m <==> name == Chatterbox
    ensures "text" in m <==> name != Chatterbox
    ensures name == Chatterbox ==>
      m["prompt"] == Str(if Truthy(req.prompt) then req.prompt.value else req.text)
    ensures name != Chatterbox ==> m["text"] == Str(req.text)
    ensures "voice_id" in m <==> name == Minimax && Truthy(req.voiceId)
    ensures "voice_id" in m ==> m["voice_id"] == Str(req.voiceId.value)
    ensures "emotion" in m <==> name == Minimax && Truthy(req.emotion)
    ensures "emotion" in m ==> m["emotion"] == Str(req.emotion.value)
    ensures "language_boost" in m <==> name == Minimax && Truthy(req.languageBoost)
    ensures "language_boost" in m ==> m["language_boost"] == Str(req.languageBoost.value)
    ensures "english_normalization" in m <==> name == Minimax && req.englishNormalization.Some?
    ensures "english_normalization" in m ==>
      m["english_normalization"] == Flag(req.englishNormalization.value)
    ensures "voice" in m <==> name == Kokoro && Truthy(req.voice)
    ensures "voice" in m ==> m["voice"] == Str(req.voice.value)
    ensures m.Keys <= {"prompt", "text", "voice_id", "emotion", "language_boost",
                       "english_normalization", "voice"}
  {
    var base: Input :=
      if name == Chatterbox then map["prompt" := Str(if Truthy(req.prompt) then req.prompt.value else req.text)]
      else map["text" := Str(req.text)];
    var minimax := name == Minimax;
    var m1 := if minimax && Truthy(req.voiceId) then base["voice_id" := Str(req.voiceId.value)] else base;
    var m2 := if minimax && Truthy(req.emotion) then m1["emotion" := Str(req.emotion.value)] else m1;
    var m3 := if minimax && Truthy(req.languageBoost)
      then m2["language_boost" := Str(req.languageBoost.value)] else m2;
    var m4 := if minimax && req.englishNormalization.Some?
      then m3["english_normalization" := Flag(req.englishNormalization.value)] else m3;
    if name == Kokoro && Truthy(req.voice) then m4["voice" := Str(req.voice.value)] else m4
  }

  /** Builds the input dictionary key by key, as the source does. */
  method BuildTtsInput(name: string, req: TtsRequest) returns (input: Input)
    ensures input == TtsInput(name, req)
  {
    input := map[];
    if name == Chatterbox {
      input := input["prompt" := Str(if Truthy(req.prompt) then req.prompt.value else req.text)];
    } else {
      input := input["text" := Str(req.text)];
    }
    if name == Minimax {
      if Truthy(req.voiceId) {
        input := input["voice_id" := Str(req.voiceId.value)];
      }
      if Truthy(req.emotion) {
        input := input["emotion" := Str(req.emotion.value)];
      }
      if Truthy(req.languageBoost) {
        input := input["language_boost" := Str(req.languageBoost.value)];
      }
      if req.englishNormalization.Some? {
        input := input["english_normalization" := Flag(req.englishNormalization.value)];
      }
    }
    if name == Kokoro && Truthy(req.voice) {
      input := input["voice" := Str(req.voice.value)];
    }
  }

  /** The model reference passed to the provider: every registered model has
      a non-empty one, its version when it has one, else its identifier. */
  function TtsRef(name: string): (r: Option<string>)
    requires name in Registry
    ensures r.Some? && r.value != ""
    ensures r == if Registry[name].version.Some? then Registry[name].version else Registry[name].identifier
  {
    ModelRef(Registry[name].version, Registry[name].identifier)
  }

  function UnknownModelMessage(name: string): string
  {
    "TTS model '" + name + "' not found"
  }

  /** `run_single_tts_inference`: an unknown model gives an error that charges
      nothing; a known one is charged its computed cost whether the provider
      returns (one audio URL) or raises (no URL, the exception's message). */
  method RunSingleTts(name: string, req: TtsRequest, run: Runner) returns (r: TtsResult)
    ensures r.modelName == name
    ensures name !in Registry ==>
      r == TtsResult(name, [], 0.0, 0, Error, Some(UnknownModelMessage(name)))
    ensures (r.costUsd, r.tokensUsed) == CalculateTtsCost(name, req.text)
    ensures r.status == Success <==> name in Registry && run(TtsRef(name), TtsInput(name, req)).Returned?
    ensures r.status == Success ==>
      |r.audioUrls| == 1 && r.errorMessage.None? &&
      r.audioUrls == SingleUrls(run(TtsRef(name), TtsInput(name, req)).output)
    ensures r.status == Error ==> r.audioUrls == [] && r.errorMessage.Some?
    ensures name in Registry && run(TtsRef(name), TtsInput(name, req)).Raised? ==>
      r.errorMessage == Some(run(TtsRef(name), TtsInput(name, req)).message)
  {
    if name !in Registry {
      return TtsResult(name, [], 0.0, 0, Error, Some(UnknownModelMessage(name)));
    }
    var config := Registry[name];
    var cost, tokens := CalculateTtsCost(name, req.text).0, CalculateTtsCost(name, req.text).1;
    var input := BuildTtsInput(name, req);
    var modelRef := ModelRef(config.version, config.identifier);
    var call := run(modelRef, input);
    match call {
      case Raised(message) =>
        r := TtsResult(name, [], cost, tokens, Error, Some(message));
      case Returned(output) =>
        var audioUrls := SingleUrls(output);
        r := TtsResult(name, audioUrls, cost, tokens, Success, None);
    }
  }

  function Costs(rs: seq<TtsResult>): seq<real>
  {
    seq(|rs|, i requires 0 <= i < |rs| => rs[i].costUsd)
  }

  function Tokens(rs: seq<TtsResult>): seq<nat>
  {
    seq(|rs|, i requires 0 <= i < |rs| => rs[i].tokensUsed)
  }

  function Statuses(rs: seq<TtsResult>): seq<Status>
  {
    seq(|rs|, i requires 0 <= i < |rs| => rs[i].status)
  }

  /** The computed cost of each requested model, in request order. */
  function ModelCosts(models: seq<string>, text: string): seq<real>
  {
    seq(|models|, i requires 0 <= i < |models| => CalculateTtsCost(models[i], text).0)
  }

  /** What a batch is charged: the computed cost of every requested model. */
  function BatchCost(models: seq<string>, text: string): (c: real)
    ensures 0.0 <= c
  {
    SumNonNegative(ModelCosts(models, text));
    Sum(ModelCosts(models, text))
  }

  /** A request that lists no models is charged kokoro's rate alone: a
      hundredth of a dollar per 1000 characters. */
  lemma DefaultRequestCost(req: TtsRequest)
    requires req.models.None?
    ensures BatchCost(Models(req), req.text) == (|req.text| as real / 1000.0) * 0.01
  {
    var costs := ModelCosts([Kokoro], req.text);
    assert costs == [(|req.text| as real / 1000.0) * 0.01];
    assert costs[..0] == [];
    assert Sum(costs) == costs[0];
    assert BatchCost(Models(req), req.text) == Sum(costs);
  }

  /** `run_tts_inference`: one result per requested model (the default one
      when none is listed), in request order, and the totals over those results. */
  method RunTts(req: TtsRequest, run: Runner) returns (resp: TtsResponse)
    ensures |resp.results| == |Models(req)| == resp.totalModels
    ensures forall i :: 0 <= i < |Models(req)| ==>
      resp.results[i].modelName == Models(req)[i] &&
      (resp.results[i].costUsd, resp.results[i].tokensUsed) == CalculateTtsCost(Models(req)[i], req.text) &&
      (resp.results[i].status == Success <==>
        Models(req)[i] in Registry && run(TtsRef(Models(req)[i]), TtsInput(Models(req)[i], req)).Returned?) &&
      (resp.results[i].status == Success ==>
        resp.results[i].audioUrls == SingleUrls(run(TtsRef(Models(req)[i]), TtsInput(Models(req)[i], req)).output)) &&
      (resp.results[i].status == Error ==> resp.results[i].audioUrls == [])
    ensures resp.successful == Count(Statuses(resp.results), Success)
    ensures resp.failed == Count(Statuses(resp.results), Error)
    ensures resp.successful + resp.failed == resp.totalModels
    ensures resp.totalCostUsd == Sum(Costs(resp.results)) == BatchCost(Models(req), req.text)
    ensures resp.totalTokens == SumNat(Tokens(resp.results))
  {
    var ms := Models(req);
    var results: seq<TtsResult> := [];
    var k := 0;
    while k < |ms|
      invariant 0 <= k <= |ms|
      invariant |results| == k
      invariant forall i :: 0 <= i < k ==>
        results[i].modelName == ms[i] &&
        (results[i].costUsd, results[i].tokensUsed) == CalculateTtsCost(ms[i], req.text) &&
        (results[i].status == Success <==>
          ms[i] in Registry && run(TtsRef(ms[i]), TtsInput(ms[i], req)).Returned?) &&
        (results[i].status == Success ==>
          results[i].audioUrls == SingleUrls(run(TtsRef(ms[i]), TtsInput(ms[i], req)).output)) &&
        (results[i].status == Error ==> results[i].audioUrls == [])
    {
      var result := RunSingleTts(ms[k], req, run);
      results := results + [result];
      k := k + 1;
    }
    var totalCost := Sum(Costs(results));
    var totalTokens := SumNat(Tokens(results));
    var successful := Count(Statuses(results), Success);
    var failed := Count(Statuses(results), Error);
    CountsPartition(Statuses(results));
    assert Costs(results) == ModelCosts(ms, req.text);
    resp := TtsResponse(results, totalCost, |results|, successful, failed, totalTokens);
  }
}
