/** The route of the earlier image server, which returns the model's reply
    text as it is instead of decoding it. */
module TempServer {
  import opened Wrappers
  import opened Json
  import opened Filenames
  import opened Vision
  import opened Service

  const NoImageProvided := "No image provided"

  /** Asks the provider about the image at `imgUrl`; the reply text is
      returned as it came. */
  function ImageDescription(env: Env, imgUrl: string): (r: Result<string, Failure>)
    ensures var sent := env.send(BuildRequest(env.model, env.prompt, String(imgUrl)));
            && (sent.Ok? ==> r == Ok(sent.value))
            && (sent.Err? ==> r == Err(DispatchFailed(sent.error)))
  {
    match env.send(BuildRequest(env.model, env.prompt, String(imgUrl)))
    case Ok(text) => Ok(text)
    case Err(cause) => Err(DispatchFailed(cause))
  }

  /** `POST /describe_image` of the earlier server: the same checks as the
      main server's upload route, then the unparsed model reply under
      `description`. */
  function DescribeImage(env: Env, files: map<string, string>): (r: Reply)
    ensures "image" !in files ==> r == ErrorReply(NoImageProvided, 400)
    ensures "image" in files && files["image"] == "" ==> r == ErrorReply(NoSelectedFile, 400)
    ensures "image" in files && files["image"] != "" && !IsImageName(files["image"]) ==>
              r == ErrorReply(InvalidFileType, 400)
    ensures r.DescriptionReply? || r.Raised? <==> "image" in files && IsImageName(files["image"])
    ensures r.DescriptionReply? ==>
              var url := env.publicUrl(env.secureFilename(files["image"]));
              var sent := env.send(BuildRequest(env.model, env.prompt, String(url)));
              sent == Ok(r.description)
    ensures r.Raised? ==> r.failure.DispatchFailed?
    ensures "image" in files && IsImageName(files["image"]) ==>
              var url := env.publicUrl(env.secureFilename(files["image"]));
              var sent := env.send(BuildRequest(env.model, env.prompt, String(url)));
              && (sent.Ok? ==> r == DescriptionReply(sent.value))
              && (sent.Err? ==> r == Raised(DispatchFailed(sent.error)))
  {
    if "image" !in files then ErrorReply(NoImageProvided, 400)
    else
      var up := Upload(env, files["image"]);
      if up.code != 200 then ErrorReply(up.message, up.code)
      else
        match ImageDescription(env, up.message)
        case Ok(description) => DescriptionReply(description)
        case Err(f) => Raised(f)
  }
}
