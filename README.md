# Shadow Empire content studio — a Dafny model

Shadow Empire is a single-page content studio. Its page component (`Index`) owns
three pieces of state:

- the active tab;
- a newest-first list of generated items;
- a credit balance that starts at 100.

Three generation screens spend credits, and they do so only after a check:

- images cost 5;
- videos cost 10;
- texts cost 2.

The image and video screens send the prompt to a webhook and decode its reply. The text
screen fills one of six platform templates with the topic and applies a tone. A credits
screen sells fixed packages or a custom amount of at least ten. Its purchase goes through a
simulated card form. The gallery searches and filters the stored items. The social
publisher toggles platforms and publishes the selected item.

The model has one module per source file:

- `Index`: the page. It is the `Studio` class plus snapshot functions on `AppState`.
- `Requests`: the shared outcome of a generation request, and `Settle`, its effect on the
  page.
- `Images`, `Videos`, `Texts`: the three screens. Each is a pure decision function
  (`ImageOutcome`, `VideoOutcome`, `TextOutcome`) and a class whose `Generate` method is
  proved to follow that function.
- `Credits`, `Payment`: the credits screen and the card form, as classes with pure
  specification functions.
- `Gallery`: the filter, counters, download names and card previews, as pure functions.
- `Social`: the platform toggle (pure) and the `SocialPublisher` class.

Shared support lives in three more modules:

- `Strings` models the JavaScript string built-ins the screens use: `trim`,
  `replace` with a character class, `includes`, `startsWith`, `toLowerCase` and `parseInt`.
- `Responses` models the webhook's reply as a value.
- `Wrappers` holds `Option` and `Result`.

`Session` ties the pieces together. An event is one of:

- a tab switch;
- a generation request with the reply it received;
- a confirmed purchase.

`Replay` applies a sequence of events to the page. For the purchase events,
`PurchaseCustom` and `PurchasePackage` run the class methods in order: the credits screen's
handler, the payment form's fields, Pagar and the timer's completion. They are proved to
change the `Studio` exactly as `Step` does. The generation requests are linked the same
way: each screen's `Generate` method ends as `Settle` says, which is `Step` for a request.
The whole-system result is `Session.SessionLedger`: from the first render, the balance is
never negative and always equals 100 plus the deposits minus the cost of every stored item.

Where the written description of the system and the code disagree, the model follows the
code:

- The video screen accepts one reply shape only (`success && videoUrl`). It does not use
  the image screen's tolerant chain.
- A social publish whose webhook call throws is reported as a failure. It keeps the
  platforms and the schedule, and shows no success message.
- Cancel on the card form is disabled while a payment is processing, so a purchase cannot
  be cancelled once Pagar is pressed.
- The image screen's webhook URL is preloaded and its field is not shown. The video
  screen's webhook starts empty.
- The text screen's button does not look at the balance. The handler's own check refuses
  the request.
- The gallery's type selector offers only "all", "image" and "text", although video items
  are stored too.

## Model

| member | source | states |
|---|---|---|
| Strings.TrimStart | src/components/ImageGenerator.tsx:42 | the result is a suffix of the input; every character removed is white space; what is left is empty or starts with a non-white-space character |
| Strings.TrimEnd | src/components/ImageGenerator.tsx:42 | the result is a prefix of the input; every character removed is white space; what is left is empty or ends with a non-white-space character |
| Strings.BlankIffAllWhitespace | src/components/ImageGenerator.tsx:42 | `!s.trim()` holds exactly when every character of `s` is white space |
| Strings.Keep | src/components/PaymentGateway.tsx:51 | a character-class `replace` keeps only accepted characters and never lengthens the string |
| Strings.KeepIsSubsequence | src/components/PaymentGateway.tsx:51 | the filtered string is an order-preserving subsequence of the input |
| Strings.KeepFixesAccepted | src/components/PaymentGateway.tsx:51 | a string of accepted characters passes through unchanged |
| Strings.KeepIdempotent | src/components/PaymentGateway.tsx:51 | filtering twice equals filtering once |
| Strings.KeepEmptyIff | src/components/TextGenerator.tsx:71 | the filter returns the empty string exactly when it refuses every character |
| Strings.KeepCounts | src/components/PaymentGateway.tsx:51 | every accepted character keeps its multiplicity and every refused one disappears |
| Strings.ContainsAt | src/components/Gallery.tsx:21 | `includes` holds exactly when the needle occurs at some index |
| Strings.ContainsMiddle | src/components/Gallery.tsx:21 | a string is found inside any concatenation that has it in the middle |
| Strings.ToLowerChar | src/components/Gallery.tsx:21 | an ASCII capital moves 32 code points down to its lower-case letter; every other character is kept |
| Strings.ToLower | src/components/Gallery.tsx:21 | lower-casing maps each character through `ToLowerChar`, keeps the length and leaves no ASCII capital |
| Strings.DigitPrefix | src/components/CreditsManager.tsx:168 | the longest run of digits at the front of the string |
| Strings.ParseInt | src/components/CreditsManager.tsx:168 | `parseInt` gives `NaN` exactly when no digit follows the leading white space and optional sign |
| Strings.SkipSign | src/components/CreditsManager.tsx:168 | at most one leading `+` or `-` is removed |
| Strings.Decimal | src/components/Gallery.tsx:34 | an id prints as a non-empty string of digits |
| Strings.DecimalValue | src/components/Gallery.tsx:34 | reading a printed id back gives the id |
| Strings.DigitPrefixOfDigits | src/components/CreditsManager.tsx:168 | a string of digits is its own digit prefix |
| Strings.ParseDecimal | src/components/CreditsManager.tsx:168 | `parseInt` of a printed non-negative integer gives that integer back |
| Responses.FailureNotice | src/components/ImageGenerator.tsx:114 | the reply's truthy `message` is shown when there is one; otherwise the generic error text |
| Requests.Settle | src/components/ImageGenerator.tsx:96-110 | on success the balance is debited by the cost and exactly one item is put in front; on rejection or failure nothing changes; the tab is never touched |
| Index.ScreenFor | src/pages/Index.tsx:29-70 | any tab name outside the seven falls back to the dashboard |
| Index.TabOf | src/pages/Index.tsx:13 | every screen has one of the seven tab names |
| Index.TabsAndScreensCorrespond | src/pages/Index.tsx:29-70 | every screen is reached from its own tab, and distinct tab values give distinct screens |
| Index.WithItem | src/pages/Index.tsx:20-21 | the new item is at index 0, the old list follows unchanged, and the balance and tab are kept |
| Index.WithCredits | src/pages/Index.tsx:25-27 | the balance becomes the given value; the content and tab are kept |
| Index.WithTab | src/pages/Index.tsx:16 | only the tab changes; balance and content are kept |
| Index.AddNeverDeduplicates | src/pages/Index.tsx:21 | adding an item already stored still raises its count by one and keeps every stored item |
| Index.NewestFirst | src/pages/Index.tsx:20-21 | two additions read back newest first, ahead of the old list |
| Index.Studio.constructor | src/pages/Index.tsx:16-18 | the page starts on the dashboard with no content and 100 credits |
| Index.Studio.AddToGallery | src/pages/Index.tsx:20-21 | the page's new state is the old one with the item prepended |
| Index.Studio.HandleCreditsChange | src/pages/Index.tsx:25-27 | the page's new state is the old one with the new balance |
| Index.Studio.SetActiveTab | src/pages/Index.tsx:77 | only the tab changes, and the screen shown is the one for that tab |
| Images.SuggestionCountIsLength | src/components/ImageGenerator.tsx:15-24 | there are exactly eight suggestions |
| Images.NextSuggestion | src/components/ImageGenerator.tsx:36 | one tick gives a valid suggestion index |
| Images.AfterTicks | src/components/ImageGenerator.tsx:34-39 | any number of ticks keeps the index valid |
| Images.TicksCycle | src/components/ImageGenerator.tsx:36 | after k ticks from i the index is (i + k) mod 8 |
| Images.ExtractIsFirstMatch | src/components/ImageGenerator.tsx:83-94 | the if/else chain returns the value of the first of the five reply shapes that applies |
| Images.DecodeImage | src/components/ImageGenerator.tsx:96 | success exactly when the extracted URL exists and is truthy; otherwise the failure notice of the reply |
| Images.HttpUrlWins | src/components/ImageGenerator.tsx:84-85 | a string `url` starting with "http" is used whatever else the reply holds |
| Images.FalsyEarlyMatchHidesLegacyShape | src/components/ImageGenerator.tsx:88-96 | an empty first element of `output` wins over a valid legacy `{tipo, url, status}` reply, and the request fails |
| Images.ImageRefusal | src/components/ImageGenerator.tsx:42-55 | no refusal only for a non-blank prompt, a non-blank webhook and at least 5 credits |
| Images.ImageReceived | src/components/ImageGenerator.tsx:60-120 | after validation a request is never refused; success yields an image item with the truthy URL, prompt, id and time stamp |
| Images.ImageOutcome | src/components/ImageGenerator.tsx:41-124 | success implies at least 5 credits and an image item carrying the prompt and a truthy URL |
| Images.ImageValidationOrder | src/components/ImageGenerator.tsx:42-55 | each refusal holds exactly when its check fails and the earlier ones pass, in the order prompt, webhook, credits |
| Images.ImageRejectsBeforeRequest | src/components/ImageGenerator.tsx:42-61 | a refused request ends the same whatever the reply would have been |
| Images.ImageSuccessIff | src/components/ImageGenerator.tsx:83-110 | success exactly when validation passes, the call answers and the reply decodes; the item carries the decoded URL |
| Images.DefaultWebhookIsSet | src/components/ImageGenerator.tsx:30 | the preloaded webhook URL is not blank |
| Images.FourCreditsAreNotEnough | src/components/ImageGenerator.tsx:52-55 | with 4 credits a non-blank prompt is refused for credits, whatever the reply |
| Images.EnabledButtonIsNeverRefused | src/components/ImageGenerator.tsx:193 | when the button is enabled, the click is never refused |
| Images.ImageGenerator.constructor | src/components/ImageGenerator.tsx:27-31 | empty prompt, no image, the preloaded webhook, suggestion 0 |
| Images.ImageGenerator.SetPrompt | src/components/ImageGenerator.tsx:186 | the prompt becomes the typed text |
| Images.ImageGenerator.RotateSuggestion | src/components/ImageGenerator.tsx:36 | the index steps to the next suggestion and stays valid |
| Images.ImageGenerator.UseSuggestion | src/components/ImageGenerator.tsx:269 | the prompt becomes the suggestion on display |
| Images.ImageGenerator.Generate | src/components/ImageGenerator.tsx:41-124 | the outcome is `ImageOutcome` of the fields and the starting balance; the page changes as `Settle` says; the shown image changes only on success; the flag ends false |
| Images.ImageGenerator.Request | src/components/ImageGenerator.tsx:60-123 | the outcome is `ImageReceived`, and the page and shown image change as on success or not at all |
| Videos.DecodeVideo | src/components/VideoGenerator.tsx:64 | success carries the truthy `videoUrl`; otherwise the failure notice of the reply |
| Videos.VideoOnlyOneShape | src/components/VideoGenerator.tsx:64 | a reply is accepted exactly when `success` and `videoUrl` are both truthy |
| Videos.ImageShapedReplyFails | src/components/VideoGenerator.tsx:64 | a reply with only a `url` fails with the generic text |
| Videos.VideoRefusal | src/components/VideoGenerator.tsx:24-37 | no refusal only for a non-blank prompt, a non-blank webhook and at least 10 credits |
| Videos.VideoReceived | src/components/VideoGenerator.tsx:42-86 | after validation a request is never refused; success yields a video item with the truthy URL and the prompt |
| Videos.VideoOutcome | src/components/VideoGenerator.tsx:23-90 | success implies at least 10 credits and a video item carrying the prompt and a truthy URL |
| Videos.VideoValidationOrder | src/components/VideoGenerator.tsx:24-37 | the refusals come in the image screen's order, and a refusal does not depend on the reply |
| Videos.VideoSuccessIff | src/components/VideoGenerator.tsx:64-78 | success exactly when validation passes, the call answers and the reply has the one shape; the item carries `videoUrl` |
| Videos.EnabledButtonIsNeverRefused | src/components/VideoGenerator.tsx:155 | when the button is enabled, the click is never refused |
| Videos.VideoGenerator.constructor | src/components/VideoGenerator.tsx:16-19 | the webhook starts empty, so any non-blank prompt is refused for the missing endpoint |
| Videos.VideoGenerator.SetPrompt | src/components/VideoGenerator.tsx:147 | the prompt becomes the typed text |
| Videos.VideoGenerator.SetWebhook | src/components/VideoGenerator.tsx:132 | the webhook becomes the typed URL |
| Videos.VideoGenerator.Generate | src/components/VideoGenerator.tsx:23-90 | the outcome is `VideoOutcome`; the page changes as `Settle` says; the shown video changes only on success; the flag ends false |
| Videos.VideoGenerator.Request | src/components/VideoGenerator.tsx:42-89 | the outcome is `VideoReceived`, and the page and shown video change as on success or not at all |
| Texts.Hashtag | src/components/TextGenerator.tsx:71 | the hashtag has no white space and is never longer than the topic |
| Texts.HashtagFaithful | src/components/TextGenerator.tsx:71 | the hashtag is an ordered subsequence of the topic with every other character kept, and it is empty exactly for a blank topic |
| Texts.PlatformOf | src/components/TextGenerator.tsx:144 | a content type outside the six keys falls back to the instagram template |
| Texts.PlatformsSelectTheirTemplates | src/components/TextGenerator.tsx:24-31 | each selector value reaches its own template |
| Texts.ContainsPrepended | src/components/TextGenerator.tsx:60-142 | text put in front keeps a contained string contained |
| Texts.ContainsExtended | src/components/TextGenerator.tsx:150-151 | text appended keeps a contained string contained |
| Texts.PieceRendered | src/components/TextGenerator.tsx:60-142 | every slot of a template appears in the filled-in text |
| Texts.TagRendered | src/components/TextGenerator.tsx:71 | a template with a hashtag slot renders `#` followed by the hashtag |
| Texts.HashtagInTemplates | src/components/TextGenerator.tsx:61-121 | the instagram, twitter, linkedin and youtube texts contain the hashtag |
| Texts.TopicRendered | src/components/TextGenerator.tsx:61 | a template with a topic slot quotes the topic |
| Texts.TopicInEveryTemplate | src/components/TextGenerator.tsx:60-144 | whatever the content type, the base text quotes the topic as typed |
| Texts.HashtagSubstitutedIffTagged | src/components/TextGenerator.tsx:60-142 | a template has a hashtag slot exactly for instagram, twitter, linkedin and youtube |
| Texts.FacebookUntagged | src/components/TextGenerator.tsx:84-90 | the facebook template has no hashtag slot |
| Texts.BlogUntagged | src/components/TextGenerator.tsx:123-141 | the blog template has no hashtag slot |
| Texts.Calm | src/components/TextGenerator.tsx:149 | same length; each ¡ and ! becomes a full stop and every other character stays |
| Texts.Professional | src/components/TextGenerator.tsx:149 | the result has none of 🌟 💫 ✨ 🔥 ¡ ! and is never longer |
| Texts.ProfessionalIdempotent | src/components/TextGenerator.tsx:149 | applying the professional tone twice equals applying it once |
| Texts.ProfessionalKeepsText | src/components/TextGenerator.tsx:149 | every other character except the full stop keeps its multiplicity |
| Texts.CalmCount | src/components/TextGenerator.tsx:149 | replacing the exclamation marks keeps the count of every other character except the full stop |
| Texts.ApplyTone | src/components/TextGenerator.tsx:146-152 | divertido appends " 😄🎉✨"; every tone but profesional and divertido leaves the text as it is |
| Texts.TextRefusal | src/components/TextGenerator.tsx:43-51 | never a missing endpoint; no refusal exactly for a non-blank topic and at least 2 credits |
| Texts.TextOutcome | src/components/TextGenerator.tsx:42-177 | a request never fails; it succeeds exactly for a non-blank topic and at least 2 credits, with a text item carrying topic, platform, tone, id and time stamp |
| Texts.AcceptedOutcome | src/components/TextGenerator.tsx:144-169 | an accepted request stores the composed text |
| Texts.RefusedOutcome | src/components/TextGenerator.tsx:43-51 | a refused request yields its refusal |
| Texts.StoredTextCarriesHashtag | src/components/TextGenerator.tsx:144-169 | a stored instagram, twitter, linkedin or youtube text contains the hashtag unless the tone is profesional |
| Texts.ToneKeepsText | src/components/TextGenerator.tsx:147-152 | every tone but profesional keeps whatever the base text contains |
| Texts.EnabledButtonRefusedForCredits | src/components/TextGenerator.tsx:251 | with fewer than 2 credits the button is enabled for a non-blank topic and the click is refused for credits |
| Texts.TextGenerator.constructor | src/components/TextGenerator.tsx:16-20 | empty topic, instagram, casual, no text |
| Texts.TextGenerator.SetTopic | src/components/TextGenerator.tsx:207 | the topic becomes the typed text |
| Texts.TextGenerator.SetContentType | src/components/TextGenerator.tsx:217 | the content type becomes the selected value |
| Texts.TextGenerator.SetTone | src/components/TextGenerator.tsx:235 | the tone becomes the selected value |
| Texts.TextGenerator.Compose | src/components/TextGenerator.tsx:144-152 | the composed text is the tone applied to the platform's template |
| Texts.TextGenerator.Record | src/components/TextGenerator.tsx:53-175 | the text is shown, the balance is debited by 2 and the item is added; the flag ends false |
| Texts.TextGenerator.EditText | src/components/TextGenerator.tsx:277 | the result panel holds the edited text |
| Texts.TextGenerator.Produce | src/components/TextGenerator.tsx:144-169 | an accepted request ends as `TextOutcome` says, shows the stored text and settles the page |
| Texts.TextGenerator.Generate | src/components/TextGenerator.tsx:42-177 | the outcome is `TextOutcome` of the fields and the starting balance; the page changes as `Settle` says; the shown text changes only on success |
| Credits.PackagesAreSound | src/components/CreditsManager.tsx:21-26 | every package buys at least 10 credits for a positive price, and only the second is marked popular |
| Credits.PackagesCheaperInBulk | src/components/CreditsManager.tsx:21-26 | later packages buy more credits at a lower price per credit |
| Credits.CustomAmount | src/components/CreditsManager.tsx:168-169 | an accepted amount is the parsed number and is at least 10 |
| Credits.CustomAmountIff | src/components/CreditsManager.tsx:168-169 | an amount is accepted exactly when the text parses to a number of at least 10 |
| Credits.DecimalAmountsAccepted | src/components/CreditsManager.tsx:168-170 | any amount of at least 10, typed in decimal, is accepted as itself |
| Credits.SevenRefused | src/components/CreditsManager.tsx:169 | "7" parses to 7 and is refused |
| Credits.ZeroRefused | src/components/CreditsManager.tsx:169 | "0" parses to 0, which is falsy, and is refused |
| Credits.EmptyRefused | src/components/CreditsManager.tsx:168-169 | an empty field parses to `NaN` and is refused |
| Credits.NotANumberRefused | src/components/CreditsManager.tsx:168-169 | text starting with anything but white space, a sign or a digit, "abc" for one, parses to `NaN` and is refused |
| Credits.TwentyAccepted | src/components/CreditsManager.tsx:168-170 | "20" is accepted as 20 credits at 200 cents |
| Credits.LegacyAmount | src/components/CreditsManager.tsx:40-47 | the unused handler accepts a parsed number exactly when it is positive, and then takes that number |
| Credits.LegacyIsLooser | src/components/CreditsManager.tsx:40-47 | the unused handler accepts everything Recargar accepts, and "7" besides |
| Credits.Opened | src/components/CreditsManager.tsx:49-53 | the gateway is shown with the given amount and price; the custom field and the recharge flag are kept |
| Credits.AfterCustom | src/components/CreditsManager.tsx:166-174 | a refused amount changes nothing; an accepted one opens the gateway at amount × 10 cents |
| Credits.Confirmed | src/components/CreditsManager.tsx:55-61 | the gateway is hidden, the field cleared and the flag lowered; the pending values are kept |
| Credits.Cancelled | src/components/CreditsManager.tsx:193 | only the gateway is hidden |
| Credits.PendingValidPreserved | src/components/CreditsManager.tsx:49-61 | opening for a package or a custom amount, confirming and cancelling all keep a shown gateway's amount at 10 or more |
| Credits.CreditsManager.constructor | src/components/CreditsManager.tsx:15-19 | the screen starts with an empty field, no gateway and nothing pending, which satisfies the invariant that a shown gateway is for 10 credits or more |
| Credits.CreditsManager.SetRechargeAmount | src/components/CreditsManager.tsx:163 | only the custom field changes, and the invariant is kept |
| Credits.CreditsManager.OpenGateway | src/components/CreditsManager.tsx:49-53 | called, as both its callers do, with 10 credits or more, the new state is `Opened` of the old one and the invariant is kept |
| Credits.CreditsManager.BuyPackage | src/components/CreditsManager.tsx:134-135 | the gateway opens for the package's amount and price, and the invariant is kept |
| Credits.CreditsManager.RechargeCustom | src/components/CreditsManager.tsx:166-174 | the gateway opens exactly for an accepted amount, as `AfterCustom` says, and the invariant is kept |
| Credits.CreditsManager.ConfirmPayment | src/components/CreditsManager.tsx:55-61 | reachable only while the gateway is shown, it raises the balance by exactly the pending amount, so by at least 10; the screen becomes `Confirmed` and the invariant is kept |
| Credits.CreditsManager.CancelGateway | src/components/CreditsManager.tsx:193 | the screen is `Cancelled`, nothing is paid, and the invariant is kept |
| Credits.CreditsManager.RechargeCredits | src/components/CreditsManager.tsx:28-38 | the balance grows by the amount, the field is cleared once the timer has run, and the invariant is kept |
| Credits.CreditsManager.CustomRecharge | src/components/CreditsManager.tsx:40-47 | a positive parsed amount is added to the balance; anything else changes nothing; the invariant is kept |
| Payment.SanitizeCardNumber | src/components/PaymentGateway.tsx:51 | only digits and spaces remain, and the input never grows |
| Payment.SanitizeExpiry | src/components/PaymentGateway.tsx:73 | only digits and '/' remain, and the input never grows |
| Payment.SanitizeCvc | src/components/PaymentGateway.tsx:84 | only digits remain, and the input never grows |
| Payment.SanitizersKeepOrderAndSettle | src/components/PaymentGateway.tsx:51-84 | each sanitiser gives an ordered subsequence, is idempotent, keeps every allowed character's count and drops every other character |
| Payment.SanitizersKeepCleanInput | src/components/PaymentGateway.tsx:51-84 | well-formed entries pass unchanged |
| Payment.PaymentGateway.constructor | src/components/PaymentGateway.tsx:12-17 | the form opens empty, not processing, for the given amount and price |
| Payment.PaymentGateway.EnterCardNumber | src/components/PaymentGateway.tsx:48-51 | the field holds the sanitised input, within 19 characters |
| Payment.PaymentGateway.EnterCardName | src/components/PaymentGateway.tsx:61 | the name is kept as typed |
| Payment.PaymentGateway.EnterExpiry | src/components/PaymentGateway.tsx:70-73 | the field holds the sanitised input, within 5 characters |
| Payment.PaymentGateway.EnterCvc | src/components/PaymentGateway.tsx:81-84 | the field holds the sanitised input, within 4 characters |
| Payment.PaymentGateway.BeginPay | src/components/PaymentGateway.tsx:19-20 | an enabled Pagar (not processing, four fields filled) starts processing |
| Payment.PaymentGateway.CompletePay | src/components/PaymentGateway.tsx:21-24 | with the form mounted for a shown gateway, processing ends and the confirmation runs once: the balance grows by the pending amount, so by at least 10 |
| Payment.PaymentGateway.Cancel | src/components/PaymentGateway.tsx:97 | cancel is only possible while not processing; it closes the gateway without paying and keeps the invariant |
| Gallery.Filtered | src/components/Gallery.tsx:19-28 | never longer than the gallery, and every item kept passes the search and the type test |
| Gallery.FilteredIsSubsequence | src/components/Gallery.tsx:19 | the result is an order-preserving subsequence of the gallery |
| Gallery.FilteredMembership | src/components/Gallery.tsx:19-28 | an item is shown exactly when it is stored and passes both tests |
| Gallery.NoFilterShowsAll | src/components/Gallery.tsx:19-28 | an empty search with "all" shows the whole gallery in order |
| Gallery.FilteredHaveType | src/components/Gallery.tsx:25 | with a type filter, every item shown has that type |
| Gallery.SearchUsesPresentFields | src/components/Gallery.tsx:20-23 | a non-empty term matches a text by topic or content, and an image or video by prompt, ignoring case |
| Gallery.SearchIgnoresCase | src/components/Gallery.tsx:20-23 | lower-casing the term does not change which items match |
| Gallery.ToLowerIdempotent | src/components/Gallery.tsx:21 | lower-casing twice equals lower-casing once, and keeps emptiness |
| Gallery.CountKind | src/components/Gallery.tsx:108 | a counter never exceeds the total |
| Gallery.CountersAgree | src/components/Gallery.tsx:108-122 | image count plus text count is at most the total, and each counter equals the length of the unsearched filter for its type |
| Gallery.VideosCountAsNeither | src/components/Gallery.tsx:108-115 | adding a video raises neither the image nor the text counter |
| Gallery.DownloadName | src/components/Gallery.tsx:30-44 | "shadow-empire-<id>.jpg" for images, "shadow-empire-text-<id>.txt" for every other type |
| Gallery.NameEndsWithKind | src/components/Gallery.tsx:34-41 | the third character from the end tells an image's name from any other |
| Gallery.DownloadNamesDistinguish | src/components/Gallery.tsx:34-41 | equal names imply the same id and either both images or both not |
| Gallery.PreviewAsWritten | src/components/Gallery.tsx:152-163 | the preview as coded, with the snippet followed by "...": it cannot be rendered exactly for video items |
| Gallery.VideoCardThrows | src/components/Gallery.tsx:163 | a gallery holding one video shows that video's card, and the card cannot be rendered |
| Gallery.CardPreview | src/components/Gallery.tsx:152-163 | images show the picture, videos the clip, and texts the first min(150, length) characters of their content followed by "..." |
| Gallery.CardPreviewExtendsAsWritten | src/components/Gallery.tsx:152-163 | the corrected preview agrees with the code wherever the code renders |
| Social.Without | src/components/SocialPublisher.tsx:34 | an id is in the result exactly when it was in the list and differs from the removed one |
| Social.Toggle | src/components/SocialPublisher.tsx:31-37 | a present id is removed; an absent one is appended at the end |
| Social.WithoutAbsent | src/components/SocialPublisher.tsx:34 | removing an absent id leaves the list unchanged |
| Social.WithoutAppend | src/components/SocialPublisher.tsx:34 | removal distributes over concatenation |
| Social.WithoutNoDuplicates | src/components/SocialPublisher.tsx:34 | removal keeps a duplicate-free list duplicate-free |
| Social.ToggleFlips | src/components/SocialPublisher.tsx:33-35 | after a toggle the id is selected exactly when it was not before |
| Social.ToggleKeepsOthers | src/components/SocialPublisher.tsx:33-35 | apart from the toggled id, the list and its order are unchanged |
| Social.ToggleNoDuplicatesAndUndo | src/components/SocialPublisher.tsx:33-35 | toggling keeps a selection duplicate-free, and toggling an absent id twice restores it |
| Social.PublishResult | src/components/SocialPublisher.tsx:39-83 | no content is refused first, then no platform; past those checks the publish fails exactly when a webhook URL is set and its call throws; success reports the schedule and the platform count |
| Social.AfterPublish | src/components/SocialPublisher.tsx:39-83 | a refusal changes nothing; a failure only lowers the flag; success also empties the platforms and the schedule |
| Social.SuccessWord | src/components/SocialPublisher.tsx:75 | the message says "programado" exactly for a scheduled publication |
| Social.PublishKeepsAndResets | src/components/SocialPublisher.tsx:75-83 | content and webhook are always kept; the flag ends false after the checks pass; success and only success clears platforms and schedule; failure keeps them |
| Social.ScheduledIffScheduleTime | src/components/SocialPublisher.tsx:75 | a success says "programado" exactly when a schedule time was entered |
| Social.NoWebhookNeverFails | src/components/SocialPublisher.tsx:58 | without a webhook URL the outcome does not depend on the network and is never a failure |
| Social.EnabledButtonIsNotRejected | src/components/SocialPublisher.tsx:243 | an enabled button is never refused, and a refusal means the button was disabled |
| Social.SocialPublisher.constructor | src/components/SocialPublisher.tsx:16-20 | nothing selected, nothing scheduled, no webhook, not publishing |
| Social.SocialPublisher.SelectContent | src/components/SocialPublisher.tsx:113 | only the selected content changes |
| Social.SocialPublisher.TogglePlatform | src/components/SocialPublisher.tsx:159 | only the platform list changes, to its toggle |
| Social.SocialPublisher.SetScheduleTime | src/components/SocialPublisher.tsx:188 | only the schedule time changes |
| Social.SocialPublisher.SetWebhookUrl | src/components/SocialPublisher.tsx:202 | only the webhook URL changes |
| Social.SocialPublisher.Publish | src/components/SocialPublisher.tsx:39-84 | the outcome and new state are `PublishResult` and `AfterPublish` of the old state; the webhook is posted exactly when the checks pass and a URL is set, with the selection, schedule and time stamp |
| Session.Deposit | src/components/CreditsManager.tsx:134-170 | every confirmed purchase adds nothing or at least 10 credits |
| Session.RequestCovered | src/pages/Index.tsx:29-56 | a request that stores an item started from a balance covering its cost, and the item is of the requested kind |
| Session.SpentPrepend | src/pages/Index.tsx:21 | a new item adds its cost to what the store has cost |
| Session.SettledRequest | src/pages/Index.tsx:20-27 | settling a covered request keeps balance plus store cost constant and keeps the balance non-negative |
| Session.StepKeepsLedger | src/pages/Index.tsx:18-67 | one event raises balance plus store cost by its deposit only; the balance stays non-negative, falls exactly when one item is added, and rises only by 10 or more |
| Session.ReplayKeepsLedger | src/pages/Index.tsx:18-67 | over any sequence of events, balance plus store cost grows by exactly the deposits, and the balance stays non-negative |
| Session.SessionLedger | src/pages/Index.tsx:18 | from the first render the balance is never negative and equals 100 plus deposits minus the cost of what is stored |
| Session.PayPending | src/components/CreditsManager.tsx:186-193 | the form mounted for the shown gateway, filled in and paid, confirms the purchase and raises the balance by exactly the pending amount |
| Session.RechargeAndPay | src/components/CreditsManager.tsx:166-174 | typing an amount and pressing Recargar opens the gateway exactly for an accepted amount; paying then adds that amount and nothing else changes |
| Session.PurchaseCustom | src/components/CreditsManager.tsx:166-193 | the class methods for a custom purchase change the page exactly as `Step` does for the `BuyCustom` event |
| Session.PurchasePackage | src/components/CreditsManager.tsx:134-193 | the class methods for a package purchase change the page exactly as `Step` does for the `BuyPackage` event |
| Session.PurchaseStep | src/components/CreditsManager.tsx:57 | a purchase event adds its deposit to the balance and changes nothing else |

## Left out

- Network calls (`fetch` to the generation and publish webhooks, `src/lib/api.ts`): the reply, or the fact that the call threw, is an input (`Fetch`, `fetchFails`). The request bodies sent to the generation webhooks are not modelled.
- Timers: the 60-second suggestion interval, the 2-second text and publish delays and the 1.5-second payment delay are each one step. The payment's delay is split into `BeginPay` and `CompletePay` so that the processing phase is visible.
- Asynchronous interleaving: a request is one atomic step. Stale `credits` captured before an `await`, and a request finishing after its screen unmounts, are not modelled.
- Texts.TextGenerator.Record: `isGenerating` is raised and lowered within one step, so no other handler can observe it as true.
- Browser APIs: anchor-click downloads, `Blob`/`URL.createObjectURL`, `navigator.share`, the clipboard and the gallery's detail dialog. The image and video screens' own download names (`shadow-empire-<now>.jpg`, `shadow-empire-video-<now>.mp4`) depend on the clock and are not modelled; only the gallery's download names are.
- Rendering, styling, toasts and console logging: a toast survives only as the outcome's refusal reason or failure notice.
- `Header` and `Dashboard`: navigation and fixed statistics. Their tab changes are `SetActiveTab`.
- Prices: `amount * 0.1` dollars is held as `amount * 10` integer cents, so no floating-point rounding is modelled.
- Ids and time stamps: `Date.now()` and `toISOString()` are parameters, and ids are not assumed unique.
- Strings.ToLower: only ASCII letters are lower-cased. Unicode case mapping is not modelled.
- Strings.ParseInt: hexadecimal `0x` prefixes and numbers too large for a double are not modelled.
- Responses.Json: reply values are JSON with integer numbers. Fractions, `NaN` and `-0` are not modelled, and a nested object is only "some object".
- Texts.PlatformOf: keys such as "toString" that reach `Object.prototype` through `mockTexts[contentType]` are not modelled; every unknown key falls back to instagram.
- Gallery.CardPreview: `substring` counts UTF-16 code units, while the model counts characters.
- Texts.HashtagSubstitutedIffTagged: that the facebook and blog texts lack the hashtag is stated on the templates' structure, not on the rendered text, because a topic can itself contain `#`.
- Payment.PaymentGateway.EnterCardNumber, EnterExpiry, EnterCvc: the `maxLength` caps, which the browser enforces, are preconditions.
- Session: the unused `customRecharge`/`rechargeCredits` handlers are modelled in `Credits` but are not events of a session, because no control calls them.

## Findings

| source | as written | input that shows it | evidently intended | confidence | as-written member | corrected member |
|---|---|---|---|---|---|---|
| src/components/Gallery.tsx:163 | every non-image card renders `item.content.substring(0, 150)`, but video items have no `content` | a gallery holding one generated video with no search and the "all" filter: its card calls `substring` on `undefined` and throws | a video card shows its clip, and text cards show their first 150 characters | not executed | Gallery.VideoCardThrows | Gallery.CardPreview |
