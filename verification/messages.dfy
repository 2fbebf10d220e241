/** Conversation turns as both completion paths send them to the
    provider. */
module Messages {
  import opened Json

  datatype Role = System | User | Assistant

  /** One part of a multimodal turn: instruction text, or a reference to
      an image by URL. The URL is whatever value the caller supplied. */
  datatype ContentPart = TextPart(text: string) | ImageUrlPart(url: Json)

  /** A turn's content: plain text, or an ordered list of parts. */
  datatype Content = PlainText(text: string) | Parts(parts: seq<ContentPart>)

  datatype Message = Message(role: Role, content: Content)
}
