/** The vision path: assembling the single-turn image description request
    and decoding the model's JSON reply into a scene and its topics. */
module Vision {
  import opened Wrappers
  import opened Json
  import opened Messages

  /** The output token budget of every vision request. */
  const VisionMaxTokens := 300

  /** A non-streamed completion request. */
  datatype VisionRequest = VisionRequest(model: string, messages: seq<Message>, maxTokens: int)

  /** Why a vision call raised instead of producing a reply. */
  datatype Failure =
    | DispatchFailed(cause: string)   // the provider call raised
    | InvalidJson(raw: string)        // the reply text is not JSON
    | NotAnObject                     // the reply is JSON but not an object, so the key lookup raises
    | BodyNotAnObject                 // the request body is JSON but not an object, so `.get` raises
    | MissingKey(key: string)         // a required key is absent

  /** The decoded reply: the scene and the topics, as the model wrote them. */
  datatype Description = Description(scene: Json, topics: Json)

  /** Exactly one user turn whose content is an instruction text followed
      by an image reference. */
  predicate IsImageQuestion(r: VisionRequest) {
    && |r.messages| == 1
    && r.messages[0].role == User
    && r.messages[0].content.Parts?
    && |r.messages[0].content.parts| == 2
    && r.messages[0].content.parts[0].TextPart?
    && r.messages[0].content.parts[1].ImageUrlPart?
  }

  /** The instruction text an image question carries. */
  function InstructionOf(r: VisionRequest): string
    requires IsImageQuestion(r)
  {
    r.messages[0].content.parts[0].text
  }

  /** The image reference an image question carries. */
  function ImageOf(r: VisionRequest): Json
    requires IsImageQuestion(r)
  {
    r.messages[0].content.parts[1].url
  }

  /** Builds the request that asks `model` to follow `prompt` on the image
      at `imgUrl`. */
  function BuildRequest(model: string, prompt: string, imgUrl: Json): (r: VisionRequest)
    ensures IsImageQuestion(r)
    ensures InstructionOf(r) == prompt && ImageOf(r) == imgUrl
    ensures r.model == model && r.maxTokens == VisionMaxTokens
  {
    VisionRequest(
      model,
      [Message(User, Parts([TextPart(prompt), ImageUrlPart(imgUrl)]))],
      VisionMaxTokens)
  }

  /** Requests for different inputs differ: nothing the caller supplies is
      dropped. */
  lemma BuildRequestInjective(m1: string, p1: string, u1: Json, m2: string, p2: string, u2: Json)
    requires BuildRequest(m1, p1, u1) == BuildRequest(m2, p2, u2)
    ensures m1 == m2 && p1 == p2 && u1 == u2
  {
    assert InstructionOf(BuildRequest(m1, p1, u1)) == p1;
    assert ImageOf(BuildRequest(m1, p1, u1)) == u1;
  }

  /** Decodes the model's reply text `raw`, already run through the JSON
      parser as `parsed`: look up `scene`, then `topics`. */
  function DecodeDescription(raw: string, parsed: Parsed): (r: Result<Description, Failure>)
    ensures r.Ok? <==> (parsed.Value? && parsed.json.Object?
                        && "scene" in parsed.json.members && "topics" in parsed.json.members)
    ensures r.Ok? ==> (r.value.scene == parsed.json.members["scene"]
                       && r.value.topics == parsed.json.members["topics"])
    ensures parsed.Malformed? <==> r == Err(InvalidJson(raw))
    ensures parsed.Value? && !parsed.json.Object? ==> r == Err(NotAnObject)
    ensures parsed.Value? && parsed.json.Object? && "scene" !in parsed.json.members ==>
              r == Err(MissingKey("scene"))
    ensures (parsed.Value? && parsed.json.Object? && "scene" in parsed.json.members
             && "topics" !in parsed.json.members) ==> r == Err(MissingKey("topics"))
    ensures r.Err? && r.error.MissingKey? ==>
              (parsed.Value? && parsed.json.Object? && r.error.key in {"scene", "topics"}
               && r.error.key !in parsed.json.members)
  {
    match parsed
    case Malformed => Err(InvalidJson(raw))
    case Value(j) =>
      if !j.Object? then Err(NotAnObject)
      else if "scene" !in j.members then Err(MissingKey("scene"))
      else if "topics" !in j.members then Err(MissingKey("topics"))
      else Ok(Description(j.members["scene"], j.members["topics"]))
  }

  /** The reply a model following the instructions writes: an object with
      `scene` and `topics`, possibly beside other keys. */
  function EncodeDescription(d: Description, extra: map<string, Json>): (j: Json)
    ensures j.Object? && j.members.Keys == extra.Keys + {"scene", "topics"}
  {
    Object(extra["scene" := d.scene]["topics" := d.topics])
  }

  /** Decoding a well-formed reply gives back exactly its scene and topics,
      whatever else the object holds. */
  lemma DecodeEncode(raw: string, d: Description, extra: map<string, Json>)
    ensures DecodeDescription(raw, Value(EncodeDescription(d, extra))) == Ok(d)
  {
  }

  /** The topics list is passed through untouched: no truncation, padding or
      length check, whatever number of topics the model returned. */
  lemma {:induction false} TopicsNotResized(raw: string, scene: Json, topics: seq<Json>, extra: map<string, Json>)
    ensures var r := DecodeDescription(raw, Value(EncodeDescription(Description(scene, Array(topics)), extra)));
            r.Ok? && r.value.topics.Array? && r.value.topics.items == topics
  {
    DecodeEncode(raw, Description(scene, Array(topics)), extra);
  }

  /** A reply with a scene and three topics decodes to that scene and those
      three topics in their order. */
  lemma ThreeTopicsDecode(raw: string)
    ensures
      var topic := (c: string, d: string) =>
        Object(map["content" := String(c), "description" := String(d)]);
      var reply := Object(map["scene" := String("a park"),
                              "topics" := Array([topic("c1", "d1"), topic("c2", "d2"), topic("c3", "d3")])]);
      var r := DecodeDescription(raw, Value(reply));
      && r.Ok? && r.value.scene == String("a park")
      && r.value.topics == Array([topic("c1", "d1"), topic("c2", "d2"), topic("c3", "d3")])
  {
  }

  /** A reply that is not JSON fails with the raw text, never with a
      partial result. */
  lemma NotJsonFails()
    ensures DecodeDescription("not json", Malformed) == Err(InvalidJson("not json"))
  {
  }
}
