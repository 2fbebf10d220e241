/** The routes of the main image server: describe an uploaded image, or
    an image given by URL, as a scene and a list of conversation topics. */
module ImageServer {
  import opened Wrappers
  import opened Json
  import opened Filenames
  import opened Vision
  import opened Service

  const NoImageProvided := "No image provided"
  const MissingJsonBody := "Invalid or missing JSON in request body"
  const NoImageUrlProvided := "No image_url provided"

  /** Asks the provider about the image at `imgUrl` and decodes its reply;
      a provider failure or an undecodable reply escapes as an exception. */
  function DescribeUrl(env: Env, imgUrl: Json): (r: Reply)
    ensures r.TopicsReply? || r.Raised?
    ensures var sent := env.send(BuildRequest(env.model, env.prompt, imgUrl));
            && (sent.Err? ==> r == Raised(DispatchFailed(sent.error)))
            && (sent.Ok? ==>
                  var d := DecodeDescription(sent.value, env.loads(sent.value));
                  && (d.Ok? ==> r == TopicsReply(d.value.scene, d.value.topics))
                  && (d.Err? ==> r == Raised(d.error)))
  {
    match env.send(BuildRequest(env.model, env.prompt, imgUrl))
    case Err(cause) => Raised(DispatchFailed(cause))
    case Ok(text) =>
      match DecodeDescription(text, env.loads(text))
      case Ok(d) => TopicsReply(d.scene, d.topics)
      case Err(f) => Raised(f)
  }

  /** `POST /describe_image`: `files` maps each multipart field name to the
      uploaded file's name. A missing `image` part is a 400; a failed upload
      is answered with the upload's own message and code; otherwise the
      stored image's public URL is described. */
  function DescribeImage(env: Env, files: map<string, string>): (r: Reply)
    ensures "image" !in files ==> r == ErrorReply(NoImageProvided, 400)
    ensures "image" in files && files["image"] == "" ==> r == ErrorReply(NoSelectedFile, 400)
    ensures "image" in files && files["image"] != "" && !IsImageName(files["image"]) ==>
              r == ErrorReply(InvalidFileType, 400)
    ensures "image" in files && IsImageName(files["image"]) ==>
              r == DescribeUrl(env, String(env.publicUrl(env.secureFilename(files["image"]))))
    ensures r.ErrorReply? ==> r.code == 400
  {
    if "image" !in files then ErrorReply(NoImageProvided, 400)
    else
      var up := Upload(env, files["image"]);
      if up.code != 200 then ErrorReply(up.message, up.code)
      else DescribeUrl(env, String(up.message))
  }

  /** `POST /describe_image_url`: `body` is the request's JSON body, absent
      when there is none. A missing or `null` body is a 400; a body that is
      not an object fails on the key lookup; an absent or falsy `image_url`
      is a 400; only otherwise is the image at that URL described. */
  function DescribeImageUrl(env: Env, body: Option<Json>): (r: Reply)
    ensures r == ErrorReply(MissingJsonBody, 400) <==> body.None? || body.value.Null?
    ensures body.Some? && !body.value.Null? && !body.value.Object? ==> r == Raised(BodyNotAnObject)
    ensures r == ErrorReply(NoImageUrlProvided, 400) <==>
              body.Some? && body.value.Object? && !Truthy(Get(body.value.members, "image_url"))
    ensures body.Some? && body.value.Object? && Truthy(Get(body.value.members, "image_url")) ==>
              r == DescribeUrl(env, body.value.members["image_url"])
  {
    if body.None? || body.value.Null? then ErrorReply(MissingJsonBody, 400)
    else if !body.value.Object? then Raised(BodyNotAnObject)
    else
      var imageUrl := Get(body.value.members, "image_url");
      if !Truthy(imageUrl) then ErrorReply(NoImageUrlProvided, 400)
      else DescribeUrl(env, imageUrl)
  }
}
