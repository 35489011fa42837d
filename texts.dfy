/** The text screen: six platform templates filled with the topic, a hashtag made of the
    topic without its white space, a tone applied to the result, and a request that
    charges two credits and never talks to a server. */
module Texts {
  import opened Wrappers
  import opened Strings
  import opened Content
  import opened Index
  import opened Requests

  const TextCost: nat := 2

  /** The six values of the platform selector. */
  const Platforms: seq<string> := ["instagram", "twitter", "facebook", "linkedin", "youtube", "blog"]

  predicate NotWhitespace(c: char) {
    !IsWhitespace(c)
  }

  /** `topic.replace(/\s+/g, '')`: the topic with all its white space removed. */
  function Hashtag(topic: string): (h: string)
    ensures |h| <= |topic|
    ensures forall i :: 0 <= i < |h| ==> !IsWhitespace(h[i])
  {
    Keep(topic, NotWhitespace)
  }

  /** The hashtag keeps every other character of the topic, in order and with its
      multiplicity, and is empty exactly when the topic is blank. */
  lemma HashtagFaithful(topic: string, c: char)
    ensures IsSubsequence(Hashtag(topic), topic)
    ensures !IsWhitespace(c) ==> multiset(Hashtag(topic))[c] == multiset(topic)[c]
    ensures Hashtag(topic) == [] <==> IsBlank(topic)
  {
    KeepIsSubsequence(topic, NotWhitespace);
    KeepCounts(topic, NotWhitespace, c);
    KeepEmptyIff(topic, NotWhitespace);
    BlankIffAllWhitespace(topic);
  }

  /** One part of a template literal: literal text, `${topic}`, or
      `#${topic.replace(/\s+/g, '')}`. */
  datatype Piece = Lit(text: string) | Topic | Tag

  /** What one part contributes to the filled-in template. */
  function RenderPiece(p: Piece, topic: string): string {
    match p
    case Lit(text) => text
    case Topic => topic
    case Tag => "#" + Hashtag(topic)
  }

  /** A template literal filled in for `topic`. */
  function Render(t: seq<Piece>, topic: string): string
    decreases |t|
  {
    if t == [] then [] else RenderPiece(t[0], topic) + Render(t[1..], topic)
  }

  const InstagramTemplate: seq<Piece> := [
    Lit("🌟 "),
    Topic,
    Lit(" \n\n"),
    Lit("¿Sabías que esto puede cambiar tu "),
    Lit("perspectiva? Te cuento mi "),
    Lit("experiencia...\n\n"),
    Lit("💫 Punto clave 1\n"),
    Lit("✨ Punto clave 2  \n"),
    Lit("🔥 Punto clave 3\n\n"),
    Lit("¿Qué opinas? ¡Cuéntame en los "),
    Lit("comentarios! 👇\n\n"),
    Tag,
    Lit(" #inspiracion #contenido "),
    Lit("#shadowempire")
  ]

  const TwitterTemplate: seq<Piece> := [
    Lit("🚀 "),
    Topic,
    Lit("\n\n"),
    Lit("Esto es lo que he aprendido:\n"),
    Lit("→ Insight 1\n"),
    Lit("→ Insight 2\n"),
    Lit("→ Insight 3\n\n"),
    Lit("¿Cuál es tu experiencia? 🧵\n\n"),
    Tag,
    Lit(" #twitter")
  ]

  const FacebookTemplate: seq<Piece> := [
    Topic,
    Lit(" - Mi reflexión personal\n\n"),
    Lit("Hoy quiero compartir contigo algo "),
    Lit("que me ha marcado profundamente...\n\n"),
    Lit("[Contenido desarrollado aquí con "),
    Lit("experiencias personales y llamada a "),
    Lit("la acción]\n\n"),
    Lit("¿Te ha pasado algo similar? Me "),
    Lit("encantaría leer tus experiencias en "),
    Lit("los comentarios.")
  ]

  const LinkedInTemplate: seq<Piece> := [
    Topic,
    Lit(": Insights desde mi experiencia "),
    Lit("profesional\n\n"),
    Lit("En mis años de carrera, he "),
    Lit("observado que...\n\n"),
    Lit("🔑 Puntos clave:\n"),
    Lit("• Aspecto técnico 1\n"),
    Lit("• Aspecto técnico 2\n"),
    Lit("• Aspecto técnico 3\n\n"),
    Lit("¿Cómo abordas tú este tema en tu "),
    Lit("industria?\n\n"),
    Tag,
    Lit(" #LinkedIn #Profesional")
  ]

  const YouTubeTemplate: seq<Piece> := [
    Lit("En este video exploramos "),
    Topic,
    Lit(" desde una perspectiva única.\n\n"),
    Lit("🎯 Lo que aprenderás:\n"),
    Lit("- Concepto fundamental\n"),
    Lit("- Aplicación práctica\n"),
    Lit("- Casos de estudio\n"),
    Lit("- Tips avanzados\n\n"),
    Lit("⏰ Timestamps:\n"),
    Lit("00:00 Introducción\n"),
    Lit("02:30 Desarrollo principal\n"),
    Lit("08:45 Ejemplos prácticos\n"),
    Lit("12:15 Conclusiones\n\n"),
    Lit("💬 ¡Déjame saber qué piensas en los "),
    Lit("comentarios!\n\n"),
    Tag,
    Lit(" #YouTube #Educativo")
  ]

  const BlogTemplate: seq<Piece> := [
    Lit("# "),
    Topic,
    Lit(": Una Guía Completa\n\n"),
    Lit("## Introducción\n"),
    Lit("En el mundo actual, "),
    Topic,
    Lit(" se ha convertido en...\n\n"),
    Lit("## Desarrollo Principal\n"),
    Lit("### Subtema 1\n"),
    Lit("Contenido detallado...\n\n"),
    Lit("### Subtema 2\n"),
    Lit("Análisis profundo...\n\n"),
    Lit("### Subtema 3\n"),
    Lit("Ejemplos prácticos...\n\n"),
    Lit("## Conclusión\n"),
    Lit("Para finalizar, "),
    Topic,
    Lit(" representa una oportunidad única "),
    Lit("para...\n\n"),
    Lit("¿Qué opinas sobre este tema? "),
    Lit("¡Comparte tus pensamientos!")
  ]

  /** The keys of `mockTexts`. */
  datatype Platform = Instagram | Twitter | Facebook | LinkedIn | YouTube | Blog

  /** The key `contentType` selects in `mockTexts[contentType] || mockTexts.instagram`:
      its own entry for one of the six keys, the instagram entry for anything else. */
  function PlatformOf(contentType: string): (p: Platform)
    ensures contentType !in Platforms ==> p == Instagram
  {
    match contentType
    case "instagram" => Instagram
    case "twitter" => Twitter
    case "facebook" => Facebook
    case "linkedin" => LinkedIn
    case "youtube" => YouTube
    case "blog" => Blog
    case _ => Instagram
  }

  /** The entry of `mockTexts` for a key. */
  function Template(p: Platform): seq<Piece> {
    match p
    case Instagram => InstagramTemplate
    case Twitter => TwitterTemplate
    case Facebook => FacebookTemplate
    case LinkedIn => LinkedInTemplate
    case YouTube => YouTubeTemplate
    case Blog => BlogTemplate
  }

  /** `baseText`. */
  function BaseText(contentType: string, topic: string): string {
    Render(Template(PlatformOf(contentType)), topic)
  }

  /** Each selector value reaches its own template. */
  lemma PlatformsSelectTheirTemplates(i: nat)
    requires i < |Platforms|
    ensures PlatformOf(Platforms[i]) == [Instagram, Twitter, Facebook, LinkedIn, YouTube, Blog][i]
  {
  }

  /** Text before a contained string keeps it contained. */
  lemma ContainsPrepended(a: string, b: string, needle: string)
    requires Contains(b, needle)
    ensures Contains(a + b, needle)
  {
    ContainsAt(b, needle);
    ContainsAt(a + b, needle);
    var i :| OccursAt(b, needle, i);
    assert (a + b)[|a| + i..|a| + i + |needle|] == b[i..i + |needle|];
    assert OccursAt(a + b, needle, |a| + i);
  }

  /** Text after a contained string keeps it contained. */
  lemma ContainsExtended(a: string, b: string, needle: string)
    requires Contains(a, needle)
    ensures Contains(a + b, needle)
  {
    ContainsAt(a, needle);
    ContainsAt(a + b, needle);
    var i :| OccursAt(a, needle, i);
    assert (a + b)[i..i + |needle|] == a[i..i + |needle|];
    assert OccursAt(a + b, needle, i);
  }

  /** Every part of a template shows up in the filled-in text. */
  lemma {:induction false} PieceRendered(t: seq<Piece>, topic: string, k: nat)
    requires k < |t|
    ensures Contains(Render(t, topic), RenderPiece(t[k], topic))
  {
    var rest := Render(t[1..], topic);
    if k == 0 {
      ContainsMiddle([], RenderPiece(t[0], topic), rest);
      assert [] + RenderPiece(t[0], topic) + rest == Render(t, topic);
    } else {
      PieceRendered(t[1..], topic, k - 1);
      ContainsPrepended(RenderPiece(t[0], topic), rest, RenderPiece(t[k], topic));
    }
  }

  /** The platforms whose template ends with a hashtag line. */
  predicate Tagged(p: Platform) {
    p == Instagram || p == Twitter || p == LinkedIn || p == YouTube
  }

  /** A template with a hashtag slot renders the hashtag. */
  lemma TagRendered(t: seq<Piece>, topic: string, k: nat)
    requires k < |t| && t[k] == Tag
    ensures Contains(Render(t, topic), "#" + Hashtag(topic))
  {
    PieceRendered(t, topic, k);
  }

  /** The instagram, twitter, linkedin and youtube templates carry the hashtag. */
  lemma HashtagInTemplates(p: Platform, topic: string)
    requires Tagged(p)
    ensures Contains(Render(Template(p), topic), "#" + Hashtag(topic))
  {
    match p
    case Instagram => TagRendered(InstagramTemplate, topic, 11);
    case Twitter => TagRendered(TwitterTemplate, topic, 8);
    case LinkedIn => TagRendered(LinkedInTemplate, topic, 11);
    case YouTube => TagRendered(YouTubeTemplate, topic, 15);
  }

  /** A template with a topic slot quotes the topic. */
  lemma TopicRendered(t: seq<Piece>, topic: string, k: nat)
    requires k < |t| && t[k] == Topic
    ensures Contains(Render(t, topic), topic)
  {
    PieceRendered(t, topic, k);
  }

  /** Every template, whatever the platform, quotes the topic as typed. */
  lemma TopicInEveryTemplate(contentType: string, topic: string)
    ensures Contains(BaseText(contentType, topic), topic)
  {
    match PlatformOf(contentType)
    case Instagram => TopicRendered(InstagramTemplate, topic, 1);
    case Twitter => TopicRendered(TwitterTemplate, topic, 1);
    case Facebook => TopicRendered(FacebookTemplate, topic, 0);
    case LinkedIn => TopicRendered(LinkedInTemplate, topic, 0);
    case YouTube => TopicRendered(YouTubeTemplate, topic, 1);
    case Blog => TopicRendered(BlogTemplate, topic, 1);
  }

  /** Only the instagram, twitter, linkedin and youtube templates substitute the
      hashtag; the facebook and blog templates do not. */
  lemma HashtagSubstitutedIffTagged(p: Platform)
    ensures Tag in Template(p) <==> Tagged(p)
  {
    match p
    case Instagram => assert InstagramTemplate[11] == Tag;
    case Twitter => assert TwitterTemplate[8] == Tag;
    case LinkedIn => assert LinkedInTemplate[11] == Tag;
    case YouTube => assert YouTubeTemplate[15] == Tag;
    case Facebook => FacebookUntagged();
    case Blog => BlogUntagged();
  }

  lemma FacebookUntagged()
    ensures Tag !in FacebookTemplate
  {
  }

  lemma BlogUntagged()
    ensures Tag !in BlogTemplate
  {
  }

  /** The decorations the professional tone deletes. */
  predicate IsDecoration(c: char) {
    c == '\U{1F31F}' || c == '\U{1F4AB}' || c == '\U{2728}' || c == '\U{1F525}'
  }

  predicate NotDecoration(c: char) {
    !IsDecoration(c)
  }

  /** `replace(/¡|!/g, ".")`. */
  function Calm(s: string): (r: string)
    ensures |r| == |s|
    ensures forall i :: 0 <= i < |s| ==>
              r[i] == if s[i] == '\U{00A1}' || s[i] == '!' then '.' else s[i]
  {
    seq(|s|, i requires 0 <= i < |s| => if s[i] == '\U{00A1}' || s[i] == '!' then '.' else s[i])
  }

  /** The professional tone: the decorations deleted, then the exclamation marks
      replaced by full stops. */
  function Professional(s: string): (r: string)
    ensures |r| <= |s|
    ensures forall i :: 0 <= i < |r| ==> !IsDecoration(r[i]) && r[i] != '\U{00A1}' && r[i] != '!'
  {
    Calm(Keep(s, NotDecoration))
  }

  /** Applying the professional tone twice is applying it once. */
  lemma ProfessionalIdempotent(s: string)
    ensures Professional(Professional(s)) == Professional(s)
  {
    var p := Professional(s);
    KeepFixesAccepted(p, NotDecoration);
    assert Calm(p) == p;
  }

  /** The professional tone keeps every character that is neither a decoration nor an
      exclamation mark, with its multiplicity. */
  lemma ProfessionalKeepsText(s: string, c: char)
    requires !IsDecoration(c) && c != '\U{00A1}' && c != '!' && c != '.'
    ensures multiset(Professional(s))[c] == multiset(s)[c]
  {
    var k := Keep(s, NotDecoration);
    KeepCounts(s, NotDecoration, c);
    CalmCount(k, c);
  }

  lemma {:induction false} CalmCount(s: string, c: char)
    requires c != '\U{00A1}' && c != '!' && c != '.'
    ensures multiset(Calm(s))[c] == multiset(s)[c]
  {
    if s != [] {
      CalmCount(s[1..], c);
      assert Calm(s) == [Calm(s)[0]] + Calm(s[1..]);
      assert s == [s[0]] + s[1..];
    }
  }

  /** What the divertido tone appends. */
  const FunSuffix := " \U{1F604}\U{1F389}\U{2728}"

  /** The tone adjustment of `generateText`. */
  function ApplyTone(tone: string, base: string): (r: string)
    ensures tone == "divertido" ==> r == base + FunSuffix
    ensures tone != "profesional" && tone != "divertido" ==> r == base
  {
    if tone == "profesional" then Professional(base)
    else if tone == "divertido" then base + FunSuffix
    else base
  }

  /** The two guards of `generateText`; there is no endpoint to check. */
  function TextRefusal(topic: string, credits: int): (r: Option<Rejection>)
    ensures r != Some(MissingEndpoint)
    ensures r.None? <==> !IsBlank(topic) && credits >= TextCost
  {
    if IsBlank(topic) then Some(EmptyInput)
    else if credits < TextCost then Some(InsufficientCredits)
    else None
  }

  /** `generateText` as a decision: the request never fails once it has passed
      validation, since nothing is sent anywhere. */
  function TextOutcome(topic: string, contentType: string, tone: string, credits: int,
                       id: nat, createdAt: string): (o: Outcome)
    ensures !o.Failed?
    ensures o.Succeeded? <==> !IsBlank(topic) && credits >= TextCost
    ensures o.Succeeded? ==> o.item.Text? && o.item.id == id && o.item.createdAt == createdAt
    ensures o.Succeeded? ==> o.item.topic == topic && o.item.platform == contentType && o.item.tone == tone
  {
    match TextRefusal(topic, credits)
    case Some(reason) => Rejected(reason)
    case None => Succeeded(Text(id, ApplyTone(tone, BaseText(contentType, topic)), topic, contentType, tone, createdAt))
  }

  /** A request that passes both checks produces the composed text. */
  lemma AcceptedOutcome(topic: string, contentType: string, tone: string, credits: int,
                        id: nat, createdAt: string, finalText: string)
    requires TextRefusal(topic, credits).None?
    requires finalText == ApplyTone(tone, BaseText(contentType, topic))
    ensures TextOutcome(topic, contentType, tone, credits, id, createdAt)
            == Succeeded(Text(id, finalText, topic, contentType, tone, createdAt))
  {
  }

  /** A refused request produces the refusal and nothing else. */
  lemma RefusedOutcome(topic: string, contentType: string, tone: string, credits: int,
                       id: nat, createdAt: string)
    requires TextRefusal(topic, credits).Some?
    ensures TextOutcome(topic, contentType, tone, credits, id, createdAt)
            == Rejected(TextRefusal(topic, credits).value)
  {
  }

  /** A stored text for instagram, twitter, linkedin or youtube carries the topic's
      hashtag unless the professional tone rewrote it. */
  lemma StoredTextCarriesHashtag(topic: string, contentType: string, tone: string, credits: int,
                                 id: nat, at: string)
    requires Tagged(PlatformOf(contentType)) && tone != "profesional"
    requires !IsBlank(topic) && credits >= TextCost
    ensures Contains(TextOutcome(topic, contentType, tone, credits, id, at).item.content, "#" + Hashtag(topic))
  {
    var base := BaseText(contentType, topic);
    HashtagInTemplates(PlatformOf(contentType), topic);
    ToneKeepsText(tone, base, "#" + Hashtag(topic));
  }

  /** Every tone but the professional one keeps whatever the base text contains. */
  lemma ToneKeepsText(tone: string, base: string, needle: string)
    requires tone != "profesional" && Contains(base, needle)
    ensures Contains(ApplyTone(tone, base), needle)
  {
    if tone == "divertido" {
      ContainsExtended(base, FunSuffix, needle);
    }
  }

  /** `disabled={isGenerating || !topic.trim()}`: the button does not look at the
      balance. */
  predicate GenerateDisabled(isGenerating: bool, topic: string) {
    isGenerating || IsBlank(topic)
  }

  /** With fewer than two credits the button is still enabled for a non-blank topic, and
      the click is refused by the credit guard. */
  lemma EnabledButtonRefusedForCredits(topic: string, contentType: string, tone: string,
                                       credits: int, id: nat, at: string)
    requires !IsBlank(topic) && credits < TextCost
    ensures !GenerateDisabled(false, topic)
    ensures TextOutcome(topic, contentType, tone, credits, id, at) == Rejected(InsufficientCredits)
  {
  }

  /** The text screen's local state. */
  class TextGenerator {
    var topic: string
    var contentType: string
    var tone: string
    var isGenerating: bool
    var generatedText: string

    constructor ()
      ensures topic == [] && contentType == "instagram" && tone == "casual"
      ensures !isGenerating && generatedText == []
    {
      topic := [];
      contentType := "instagram";
      tone := "casual";
      isGenerating := false;
      generatedText := [];
    }

    method SetTopic(t: string)
      modifies this`topic
      ensures topic == t
    {
      topic := t;
    }

    method SetContentType(t: string)
      modifies this`contentType
      ensures contentType == t
    {
      contentType := t;
    }

    method SetTone(t: string)
      modifies this`tone
      ensures tone == t
    {
      tone := t;
    }

    /** The `try` block up to `setGeneratedText`: the template for the platform, then
        the tone, for the values the three fields held when the request started. */
    method Compose(topic: string, contentType: string, tone: string) returns (finalText: string)
      ensures finalText == ApplyTone(tone, BaseText(contentType, topic))
    {
      finalText := BaseText(contentType, topic);
      if tone == "profesional" {
        finalText := Professional(finalText);
      } else if tone == "divertido" {
        finalText := finalText + FunSuffix;
      }
    }

    /** What an accepted request changes, from `setIsGenerating(true)` to the `finally`
        block: the text shown, the balance debited, the item added, the flag lowered. */
    method Record(studio: Studio, item: ContentItem) returns (o: Outcome)
      requires item.Text?
      modifies this`isGenerating, this`generatedText, studio
      ensures !isGenerating
      ensures o == Succeeded(item)
      ensures studio.State() == Settle(old(studio.State()), TextCost, o)
      ensures generatedText == item.content
    {
      isGenerating := true;
      generatedText := item.content;
      studio.HandleCreditsChange(studio.credits - TextCost);
      studio.AddToGallery(item);
      o := Succeeded(item);
      isGenerating := false;
    }

    /** The result panel is editable. */
    method EditText(t: string)
      modifies this`generatedText
      ensures generatedText == t
    {
      generatedText := t;
    }

    /** An accepted request: the text composed, then shown and stored, and the balance
        debited. */
    method Produce(studio: Studio, topic: string, contentType: string, tone: string, credits: int,
                   id: nat, createdAt: string) returns (o: Outcome)
      requires credits == studio.credits && TextRefusal(topic, credits).None?
      modifies this`isGenerating, this`generatedText, studio
      ensures !isGenerating
      ensures o == TextOutcome(topic, contentType, tone, credits, id, createdAt)
      ensures studio.State() == Settle(old(studio.State()), TextCost, o)
      ensures o.Succeeded? && generatedText == o.item.content
    {
      var finalText := Compose(topic, contentType, tone);
      AcceptedOutcome(topic, contentType, tone, credits, id, createdAt, finalText);
      o := Record(studio, Text(id, finalText, topic, contentType, tone, createdAt));
    }

    /** `generateText`, with `Date.now()` and the time stamp given as `id` and
        `createdAt`. */
    method Generate(studio: Studio, id: nat, createdAt: string) returns (o: Outcome)
      requires !isGenerating
      modifies this`isGenerating, this`generatedText, studio
      ensures !isGenerating
      ensures o == TextOutcome(old(topic), old(contentType), old(tone), old(studio.credits), id, createdAt)
      ensures studio.State() == Settle(old(studio.State()), TextCost, o)
      ensures generatedText == if o.Succeeded? then o.item.content else old(generatedText)
    {
      var topic, contentType, tone, credits := this.topic, this.contentType, this.tone, studio.credits;
      var refusal := TextRefusal(topic, credits);
      if refusal.Some? {
        RefusedOutcome(topic, contentType, tone, credits, id, createdAt);
        return Rejected(refusal.value);
      }
      o := Produce(studio, topic, contentType, tone, credits, id, createdAt);
    }
  }
}
