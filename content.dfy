/** The items the studio generates and the gallery stores. */
module Content {
  import opened Wrappers
  import opened Responses

  /** One generated artifact. `id` is the caller-supplied `Date.now()` value and is not
      assumed unique; `createdAt` is the caller-supplied ISO time stamp. The URL of an
      image or video is whatever value the webhook sent. */
  datatype ContentItem =
    | Image(id: nat, url: Json, prompt: string, createdAt: string)
    | Video(id: nat, url: Json, prompt: string, createdAt: string)
    | Text(id: nat, content: string, topic: string, platform: string, tone: string, createdAt: string)
  {
    /** The item's `type` property. */
    function Kind(): string {
      match this
      case Image(_, _, _, _) => "image"
      case Video(_, _, _, _) => "video"
      case Text(_, _, _, _, _, _) => "text"
    }

    /** `item.prompt`, absent on text items. */
    function PromptField(): Option<string> {
      if Text? then None else Some(prompt)
    }

    /** `item.topic`, present on text items only. */
    function TopicField(): Option<string> {
      if Text? then Some(topic) else None
    }

    /** `item.content`, present on text items only. */
    function ContentField(): Option<string> {
      if Text? then Some(content) else None
    }
  }
}
