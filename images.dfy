/** The image screen: its validation, the tolerant decoding of the webhook's reply, the
    debit and the new gallery item, and the rotating prompt suggestion. */
module Images {
  import opened Wrappers
  import opened Strings
  import opened Responses
  import opened Content
  import opened Index
  import opened Requests

  const ImageCost: nat := 5

  /** The webhook the screen is preloaded with; its settings panel is hidden, so this
      is the URL every request goes to. */
  const DefaultWebhook: string := "https://" + "n8n-n8n.zz3ost.easypanel.host/webhook/generate-media"

  /** The eight prompt suggestions the screen cycles through. */
  const Suggestions: seq<string> := [
    "Un dragón volando sobre una ciudad futurista, arte digital",
    "Un retrato de una reina azteca en estilo realista",
    "Un bosque encantado con criaturas mágicas, estilo Studio Ghibli",
    "Un robot tomando café en una terraza parisina, arte conceptual",
    "Un paisaje marciano al atardecer, colores vibrantes",
    "Un guerrero samurái en una tormenta de pétalos, estilo anime",
    "Un templo maya en la jungla, hiperrealista",
    "Un auto clásico en una carretera nevada, fotografía nocturna"
  ]

  /** `SUGERENCIAS.length`. */
  const SuggestionCount: nat := 8

  lemma SuggestionCountIsLength()
    ensures |Suggestions| == SuggestionCount
  {
  }

  /** One tick of the sixty-second interval. */
  function NextSuggestion(i: nat): (j: nat)
    ensures j < SuggestionCount
  {
    (i + 1) % SuggestionCount
  }

  /** `k` ticks from suggestion `i`. */
  function AfterTicks(i: nat, k: nat): (j: nat)
    requires i < SuggestionCount
    ensures j < SuggestionCount
  {
    if k == 0 then i else NextSuggestion(AfterTicks(i, k - 1))
  }

  /** After `k` ticks the screen shows suggestion `(i + k) mod 8`: every suggestion is
      shown in turn and the cycle restarts after eight ticks. */
  lemma {:induction false} TicksCycle(i: nat, k: nat)
    requires i < SuggestionCount
    ensures AfterTicks(i, k) == (i + k) % SuggestionCount
  {
    if k > 0 {
      TicksCycle(i, k - 1);
      var n := SuggestionCount;
      var m := (i + k - 1) % n;
      assert i + k - 1 == ((i + k - 1) / n) * n + m;
      assert (m + 1) % n == (i + k) % n;
    }
  }

  /** The reply shapes the screen recognises, in the order it tries them. Each
      matcher either does not apply (`None`) or names the value it would use. */
  function Shape(k: nat, r: Reply): Option<Json> {
    if k == 0 then
      (if r.url.Some? && r.url.value.Str? && StartsWith(r.url.value.s, "http") then r.url else None)
    else if k == 1 then
      (if Present(r.success) && Present(r.imageUrl) then r.imageUrl else None)
    else if k == 2 then
      (if r.output.Some? && r.output.value.Arr? && |r.output.value.elems| > 0
       then Some(r.output.value.elems[0]) else None)
    else if k == 3 then
      (if r.output.Some? && r.output.value.Str? then r.output else None)
    else if k == 4 then
      (if r.tipo == Some(Str("imagen")) && Present(r.url) && r.status == Some(Str("ok")) then r.url else None)
    else None
  }

  const ShapeCount: nat := 5

  /** The value of the first shape, from the `k`-th on, that applies. */
  function FirstMatch(r: Reply, k: nat): Option<Json>
    decreases ShapeCount - k
  {
    if k >= ShapeCount then None
    else if Shape(k, r).Some? then Shape(k, r)
    else FirstMatch(r, k + 1)
  }

  /** The screen's `imageUrl` after its if/else chain; `None` is the initial `null`. */
  function ExtractImageUrl(r: Reply): Option<Json> {
    if r.url.Some? && r.url.value.Str? && StartsWith(r.url.value.s, "http") then r.url
    else if Present(r.success) && Present(r.imageUrl) then r.imageUrl
    else if r.output.Some? && r.output.value.Arr? && |r.output.value.elems| > 0 then Some(r.output.value.elems[0])
    else if r.output.Some? && r.output.value.Str? then r.output
    else if r.tipo == Some(Str("imagen")) && Present(r.url) && r.status == Some(Str("ok")) then r.url
    else None
  }

  /** The chain is the ordered list of matchers with the first match winning. */
  lemma ExtractIsFirstMatch(r: Reply)
    ensures ExtractImageUrl(r) == FirstMatch(r, 0)
  {
    assert FirstMatch(r, 4) == Shape(4, r);
    assert FirstMatch(r, 3) == if Shape(3, r).Some? then Shape(3, r) else Shape(4, r);
  }

  /** `if (imageUrl)`: a URL is extracted and truthy, or the reply's message (or the
      generic text) is reported. */
  function DecodeImage(r: Reply): (res: Result<Json, Notice>)
    ensures res.Ok? ==> Truthy(res.value) && ExtractImageUrl(r) == Some(res.value)
    ensures res.Err? ==> res.error == FailureNotice(r)
    ensures res.Err? <==> ExtractImageUrl(r).None? || !Truthy(ExtractImageUrl(r).value)
  {
    var u := ExtractImageUrl(r);
    if u.Some? && Truthy(u.value) then Ok(u.value) else Err(FailureNotice(r))
  }

  /** An `http` URL in the `url` property is used whatever else the reply says. */
  lemma HttpUrlWins(r: Reply, link: string)
    requires r.url == Some(Str(link)) && StartsWith(link, "http")
    ensures DecodeImage(r) == Ok(Str(link))
  {
  }

  /** First match wins even when its value is falsy: an `output` array whose first
      element is empty hides a well-formed legacy `{tipo, url, status}` reply. */
  lemma FalsyEarlyMatchHidesLegacyShape()
    ensures var r := Reply(None, None, None, None, Some(Arr([Str("")])),
                           Some(Str("imagen")), Some(Str("ok")), None);
            Shape(4, r.(url := Some(Str("x")))).Some? &&
            DecodeImage(r.(url := Some(Str("x")))) == Err(GenericError)
  {
  }

  /** The three guards of `generateImage`, in the order it checks them. */
  function ImageRefusal(prompt: string, webhook: string, credits: int): (r: Option<Rejection>)
    ensures r.None? ==> !IsBlank(prompt) && !IsBlank(webhook) && credits >= ImageCost
  {
    if IsBlank(prompt) then Some(EmptyInput)
    else if IsBlank(webhook) then Some(MissingEndpoint)
    else if credits < ImageCost then Some(InsufficientCredits)
    else None
  }

  /** The `try` block: the reply decoded into a new item, or the failure reported. */
  function ImageReceived(prompt: string, fetch: Fetch, id: nat, createdAt: string): (o: Outcome)
    ensures !o.Rejected?
    ensures o.Succeeded? ==> o.item.Image? && Truthy(o.item.url)
    ensures o.Succeeded? ==> o.item == Image(id, o.item.url, prompt, createdAt)
  {
    match fetch
    case Threw => Failed(ConnectionError)
    case Answered(data) =>
      match DecodeImage(data)
      case Ok(url) => Succeeded(Image(id, url, prompt, createdAt))
      case Err(notice) => Failed(notice)
  }

  /** `generateImage` as a decision: validation, then the request, then decoding. */
  function ImageOutcome(prompt: string, webhook: string, credits: int, fetch: Fetch,
                        id: nat, createdAt: string): (o: Outcome)
    ensures o.Succeeded? ==> credits >= ImageCost && o.item.Image? && Truthy(o.item.url)
    ensures o.Succeeded? ==> o.item == Image(id, o.item.url, prompt, createdAt)
  {
    match ImageRefusal(prompt, webhook, credits)
    case Some(reason) => Rejected(reason)
    case None => ImageReceived(prompt, fetch, id, createdAt)
  }

  /** The refusals are checked in order: empty prompt, then missing webhook, then
      insufficient credits, and a request that passes all three is never refused. */
  lemma ImageValidationOrder(prompt: string, webhook: string, credits: int, fetch: Fetch,
                             id: nat, at: string)
    ensures var o := ImageOutcome(prompt, webhook, credits, fetch, id, at);
            && (o == Rejected(EmptyInput) <==> IsBlank(prompt))
            && (o == Rejected(MissingEndpoint) <==> !IsBlank(prompt) && IsBlank(webhook))
            && (o == Rejected(InsufficientCredits) <==>
                  !IsBlank(prompt) && !IsBlank(webhook) && credits < ImageCost)
            && (o.Rejected? <==> IsBlank(prompt) || IsBlank(webhook) || credits < ImageCost)
  {
  }

  /** A refused request is decided before anything is sent: the reply plays no part. */
  lemma ImageRejectsBeforeRequest(prompt: string, webhook: string, credits: int,
                                  f1: Fetch, f2: Fetch, id: nat, at: string)
    requires ImageOutcome(prompt, webhook, credits, f1, id, at).Rejected?
    ensures ImageOutcome(prompt, webhook, credits, f2, id, at) == ImageOutcome(prompt, webhook, credits, f1, id, at)
  {
  }

  /** A request succeeds exactly when it passes validation, the call answers, and the
      reply yields a truthy URL; the item then carries that URL and the prompt. */
  lemma ImageSuccessIff(prompt: string, webhook: string, credits: int, fetch: Fetch,
                        id: nat, at: string)
    ensures var o := ImageOutcome(prompt, webhook, credits, fetch, id, at);
            o.Succeeded? <==>
              && !IsBlank(prompt) && !IsBlank(webhook) && credits >= ImageCost
              && fetch.Answered? && DecodeImage(fetch.data).Ok?
    ensures var o := ImageOutcome(prompt, webhook, credits, fetch, id, at);
            o.Succeeded? ==> o.item.url == DecodeImage(fetch.data).value
  {
  }

  lemma DefaultWebhookIsSet()
    ensures !IsBlank(DefaultWebhook)
  {
    BlankIffAllWhitespace(DefaultWebhook);
    assert DefaultWebhook[0] == 'h';
  }

  /** A request with four credits is refused for lack of credits, whatever the reply. */
  lemma FourCreditsAreNotEnough(prompt: string, fetch: Fetch, id: nat, at: string)
    requires !IsBlank(prompt)
    ensures ImageOutcome(prompt, DefaultWebhook, 4, fetch, id, at) == Rejected(InsufficientCredits)
  {
    DefaultWebhookIsSet();
  }

  /** `disabled={isGenerating || !prompt.trim() || credits < CREDITS_PER_IMAGE}`. */
  predicate GenerateDisabled(isGenerating: bool, prompt: string, credits: int) {
    isGenerating || IsBlank(prompt) || credits < ImageCost
  }

  /** With the preloaded webhook, an enabled button never leads to a refusal. */
  lemma EnabledButtonIsNeverRefused(prompt: string, credits: int, fetch: Fetch, id: nat, at: string)
    requires !GenerateDisabled(false, prompt, credits)
    ensures !ImageOutcome(prompt, DefaultWebhook, credits, fetch, id, at).Rejected?
  {
    DefaultWebhookIsSet();
  }

  /** The image screen's local state. */
  class ImageGenerator {
    var prompt: string
    var isGenerating: bool
    var generatedImage: Option<Json>
    var webhookUrl: string
    var suggestionIdx: nat

    ghost predicate Valid()
      reads this
    {
      suggestionIdx < SuggestionCount && !isGenerating
    }

    constructor ()
      ensures Valid()
      ensures prompt == [] && generatedImage == None
      ensures webhookUrl == DefaultWebhook && suggestionIdx == 0
    {
      prompt := [];
      isGenerating := false;
      generatedImage := None;
      webhookUrl := DefaultWebhook;
      suggestionIdx := 0;
    }

    method SetPrompt(p: string)
      modifies this`prompt
      ensures prompt == p
    {
      prompt := p;
    }

    /** The interval callback: the next suggestion, wrapping after the last. */
    method RotateSuggestion()
      requires Valid()
      modifies this`suggestionIdx
      ensures Valid() && suggestionIdx == NextSuggestion(old(suggestionIdx))
    {
      suggestionIdx := (suggestionIdx + 1) % SuggestionCount;
    }

    /** "Usar esta sugerencia": the prompt becomes the suggestion on display. */
    method UseSuggestion()
      requires Valid()
      modifies this`prompt
      ensures prompt == Suggestions[suggestionIdx]
    {
      SuggestionCountIsLength();
      prompt := Suggestions[suggestionIdx];
    }

    /** `generateImage`, with the awaited reply given as `fetch` and `Date.now()` and the
        time stamp as `id` and `createdAt`. */
    method Generate(studio: Studio, fetch: Fetch, id: nat, createdAt: string) returns (o: Outcome)
      requires Valid()
      modifies this, studio
      ensures Valid()
      ensures o == ImageOutcome(prompt, webhookUrl, old(studio.credits), fetch, id, createdAt)
      ensures studio.State() == Settle(old(studio.State()), ImageCost, o)
      ensures generatedImage == if o.Succeeded? then Some(o.item.url) else old(generatedImage)
      ensures prompt == old(prompt) && webhookUrl == old(webhookUrl)
      ensures suggestionIdx == old(suggestionIdx)
    {
      var refusal := ImageRefusal(prompt, webhookUrl, studio.credits);
      if refusal.Some? {
        return Rejected(refusal.value);
      }
      isGenerating := true;
      o := Request(studio, fetch, id, createdAt);
      isGenerating := false;
    }

    /** The `try`/`catch` part of `generateImage`, once validation has passed: decode
        the reply, then debit and add the item, or report the failure. */
    method Request(studio: Studio, fetch: Fetch, id: nat, createdAt: string) returns (o: Outcome)
      requires studio.credits >= ImageCost
      modifies this`generatedImage, studio
      ensures o == ImageReceived(prompt, fetch, id, createdAt)
      ensures studio.State() == Settle(old(studio.State()), ImageCost, o)
      ensures generatedImage == if o.Succeeded? then Some(o.item.url) else old(generatedImage)
    {
      var credits := studio.credits;
      match fetch {
        case Threw =>
          o := Failed(ConnectionError);
        case Answered(data) =>
          var imageUrl := ExtractImageUrl(data);
          if imageUrl.Some? && Truthy(imageUrl.value) {
            generatedImage := imageUrl;
            studio.HandleCreditsChange(credits - ImageCost);
            var item := Image(id, imageUrl.value, prompt, createdAt);
            studio.AddToGallery(item);
            o := Succeeded(item);
          } else {
            o := Failed(FailureNotice(data));
          }
      }
    }
  }
}
