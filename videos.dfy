/** The video screen: the same guards as the image screen with a cost of ten, a
    webhook field that starts empty, and a single accepted reply shape. */
module Videos {
  import opened Wrappers
  import opened Strings
  import opened Responses
  import opened Content
  import opened Index
  import opened Requests

  const VideoCost: nat := 10

  /** `data.success && data.videoUrl`: the only reply the screen accepts. */
  function DecodeVideo(r: Reply): (res: Result<Json, Notice>)
    ensures res.Ok? ==> Truthy(res.value) && r.videoUrl == Some(res.value)
    ensures res.Err? ==> res.error == FailureNotice(r)
  {
    if Present(r.success) && Present(r.videoUrl) then Ok(r.videoUrl.value) else Err(FailureNotice(r))
  }

  /** There is no fallback: a reply is accepted exactly when it reports success and
      carries a truthy `videoUrl`, whatever its other properties say. */
  lemma VideoOnlyOneShape(r: Reply)
    ensures DecodeVideo(r).Ok? <==> Present(r.success) && Present(r.videoUrl)
  {
  }

  /** A reply the image screen accepts through its `url` shape is a failure here. */
  lemma ImageShapedReplyFails(link: string)
    ensures DecodeVideo(Reply(Some(Str(link)), None, None, None, None, None, None, None)) == Err(GenericError)
  {
  }

  /** The three guards of `generateVideo`, in the order it checks them. */
  function VideoRefusal(prompt: string, webhook: string, credits: int): (r: Option<Rejection>)
    ensures r.None? ==> !IsBlank(prompt) && !IsBlank(webhook) && credits >= VideoCost
  {
    if IsBlank(prompt) then Some(EmptyInput)
    else if IsBlank(webhook) then Some(MissingEndpoint)
    else if credits < VideoCost then Some(InsufficientCredits)
    else None
  }

  /** The `try` block: the reply decoded into a new item, or the failure reported. */
  function VideoReceived(prompt: string, fetch: Fetch, id: nat, createdAt: string): (o: Outcome)
    ensures !o.Rejected?
    ensures o.Succeeded? ==> o.item.Video? && Truthy(o.item.url)
    ensures o.Succeeded? ==> o.item == Video(id, o.item.url, prompt, createdAt)
  {
    match fetch
    case Threw => Failed(ConnectionError)
    case Answered(data) =>
      match DecodeVideo(data)
      case Ok(url) => Succeeded(Video(id, url, prompt, createdAt))
      case Err(notice) => Failed(notice)
  }

  /** `generateVideo` as a decision. */
  function VideoOutcome(prompt: string, webhook: string, credits: int, fetch: Fetch,
                        id: nat, createdAt: string): (o: Outcome)
    ensures o.Succeeded? ==> credits >= VideoCost && o.item.Video? && Truthy(o.item.url)
    ensures o.Succeeded? ==> o.item == Video(id, o.item.url, prompt, createdAt)
  {
    match VideoRefusal(prompt, webhook, credits)
    case Some(reason) => Rejected(reason)
    case None => VideoReceived(prompt, fetch, id, createdAt)
  }

  /** The refusals come in the same order as for images, and a refused request never
      looks at the reply. */
  lemma VideoValidationOrder(prompt: string, webhook: string, credits: int,
                             f1: Fetch, f2: Fetch, id: nat, at: string)
    ensures var o := VideoOutcome(prompt, webhook, credits, f1, id, at);
            && (o == Rejected(EmptyInput) <==> IsBlank(prompt))
            && (o == Rejected(MissingEndpoint) <==> !IsBlank(prompt) && IsBlank(webhook))
            && (o == Rejected(InsufficientCredits) <==>
                  !IsBlank(prompt) && !IsBlank(webhook) && credits < VideoCost)
            && (o.Rejected? ==> VideoOutcome(prompt, webhook, credits, f2, id, at) == o)
  {
  }

  /** A request succeeds exactly when it passes validation and the reply has the one
      accepted shape; the item then carries `videoUrl` and the prompt. */
  lemma VideoSuccessIff(prompt: string, webhook: string, credits: int, fetch: Fetch,
                        id: nat, at: string)
    ensures var o := VideoOutcome(prompt, webhook, credits, fetch, id, at);
            o.Succeeded? <==>
              && !IsBlank(prompt) && !IsBlank(webhook) && credits >= VideoCost
              && fetch.Answered? && Present(fetch.data.success) && Present(fetch.data.videoUrl)
    ensures var o := VideoOutcome(prompt, webhook, credits, fetch, id, at);
            o.Succeeded? ==> o.item.url == fetch.data.videoUrl.value
  {
  }

  /** `disabled={isGenerating || !prompt.trim() || !n8nWebhookUrl.trim() || credits < 10}`. */
  predicate GenerateDisabled(isGenerating: bool, prompt: string, webhook: string, credits: int) {
    isGenerating || IsBlank(prompt) || IsBlank(webhook) || credits < VideoCost
  }

  /** Whenever the button is enabled, the request passes validation. */
  lemma EnabledButtonIsNeverRefused(prompt: string, webhook: string, credits: int,
                                    fetch: Fetch, id: nat, at: string)
    requires !GenerateDisabled(false, prompt, webhook, credits)
    ensures !VideoOutcome(prompt, webhook, credits, fetch, id, at).Rejected?
  {
  }

  /** The video screen's local state. */
  class VideoGenerator {
    var prompt: string
    var isGenerating: bool
    var generatedVideo: Option<Json>
    var webhookUrl: string

    /** The screen as mounted: nothing typed and no webhook configured, so any
        non-blank prompt is refused for the missing endpoint until a URL is entered. */
    constructor ()
      ensures prompt == [] && webhookUrl == [] && !isGenerating && generatedVideo == None
      ensures forall p, c, f, id, at :: !IsBlank(p) ==>
                VideoOutcome(p, webhookUrl, c, f, id, at) == Rejected(MissingEndpoint)
    {
      prompt := [];
      isGenerating := false;
      generatedVideo := None;
      webhookUrl := [];
    }

    method SetPrompt(p: string)
      modifies this`prompt
      ensures prompt == p
    {
      prompt := p;
    }

    method SetWebhook(url: string)
      modifies this`webhookUrl
      ensures webhookUrl == url
    {
      webhookUrl := url;
    }

    /** `generateVideo`, with the awaited reply given as `fetch`. */
    method Generate(studio: Studio, fetch: Fetch, id: nat, createdAt: string) returns (o: Outcome)
      requires !isGenerating
      modifies this, studio
      ensures !isGenerating
      ensures o == VideoOutcome(prompt, webhookUrl, old(studio.credits), fetch, id, createdAt)
      ensures studio.State() == Settle(old(studio.State()), VideoCost, o)
      ensures generatedVideo == if o.Succeeded? then Some(o.item.url) else old(generatedVideo)
      ensures prompt == old(prompt) && webhookUrl == old(webhookUrl)
    {
      var refusal := VideoRefusal(prompt, webhookUrl, studio.credits);
      if refusal.Some? {
        return Rejected(refusal.value);
      }
      isGenerating := true;
      o := Request(studio, fetch, id, createdAt);
      isGenerating := false;
    }

    /** The `try`/`catch` part of `generateVideo`. */
    method Request(studio: Studio, fetch: Fetch, id: nat, createdAt: string) returns (o: Outcome)
      requires studio.credits >= VideoCost
      modifies this`generatedVideo, studio
      ensures o == VideoReceived(prompt, fetch, id, createdAt)
      ensures studio.State() == Settle(old(studio.State()), VideoCost, o)
      ensures generatedVideo == if o.Succeeded? then Some(o.item.url) else old(generatedVideo)
    {
      var credits := studio.credits;
      match fetch {
        case Threw =>
          o := Failed(ConnectionError);
        case Answered(data) =>
          if Present(data.success) && Present(data.videoUrl) {
            generatedVideo := data.videoUrl;
            studio.HandleCreditsChange(credits - VideoCost);
            var item := Video(id, data.videoUrl.value, prompt, createdAt);
            studio.AddToGallery(item);
            o := Succeeded(item);
          } else {
            o := Failed(FailureNotice(data));
          }
      }
    }
  }
}
