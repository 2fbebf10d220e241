/** What the two image servers share around the vision path: the
    collaborators they call, the replies their handlers produce, and the
    upload decision ladder. */
module Service {
  import opened Wrappers
  import opened Json
  import opened Filenames
  import opened Vision

  /** The calls a server makes that this model does not look inside:
      sanitising a filename, storing the image and producing its public
      URL, sending a request to the provider (which answers with the reply
      text or raises with a cause), and parsing JSON text. `model` and
      `prompt` are the server's configured model name and instruction. */
  datatype Env = Env(
    model: string,
    prompt: string,
    secureFilename: string -> string,
    publicUrl: string -> string,
    send: VisionRequest -> Result<string, string>,
    loads: string -> Parsed)

  /** What a route handler ends with: a JSON error body with a status code,
      one of the two success bodies (status 200), or an exception that
      escapes the handler. */
  datatype Reply =
    | ErrorReply(error: string, code: int)
    | TopicsReply(scenario: Json, topics: Json)
    | DescriptionReply(description: string)
    | Raised(failure: Failure)

  /** The `(message, code)` pair the upload step returns. */
  datatype Uploaded = Uploaded(message: string, code: int)

  const NoSelectedFile := "No selected file"
  const InvalidFileType := "Invalid file type"

  /** The upload step: reject an empty name, then a name whose extension is
      not an allowed image type; otherwise store the image and answer with
      its public URL. */
  function Upload(env: Env, filename: string): (r: Uploaded)
    ensures r.code == 200 <==> IsImageName(filename)
    ensures filename == "" ==> r == Uploaded(NoSelectedFile, 400)
    ensures filename != "" && !IsImageName(filename) ==> r == Uploaded(InvalidFileType, 400)
    ensures r.code == 200 ==> r.message == env.publicUrl(env.secureFilename(filename))
  {
    AllowedFileMeetsSpec(filename);
    if filename == "" then Uploaded(NoSelectedFile, 400)
    else if AllowedFile(filename) then Uploaded(env.publicUrl(env.secureFilename(filename)), 200)
    else Uploaded(InvalidFileType, 400)
  }

  /** The empty name is reported as such, although it would also fail the
      extension check: the emptiness check comes first. */
  lemma EmptyNameCheckedFirst(env: Env)
    ensures !AllowedFile("")
    ensures Upload(env, "").message == NoSelectedFile
  {
    MissingExtensionCases();
  }
}
