/** The gallery: a search over prompts, topics and texts, a type filter, the counters
    above the grid, the download file names and the card previews. */
module Gallery {
  import opened Wrappers
  import opened Strings
  import opened Responses
  import opened Content

  /** `field?.toLowerCase().includes(term.toLowerCase())` for a field that may be
      absent: an absent field never matches. */
  predicate FieldMatches(field: Option<string>, term: string) {
    field.Some? && Contains(ToLower(field.value), ToLower(term))
  }

  /** The search half of the filter: an empty term matches everything, otherwise the
      term must occur, ignoring case, in the prompt, the topic or the text. */
  predicate MatchesSearch(item: ContentItem, term: string) {
    || term == []
    || FieldMatches(item.PromptField(), term)
    || FieldMatches(item.TopicField(), term)
    || FieldMatches(item.ContentField(), term)
  }

  /** The type half: "all" or the item's own type. */
  predicate MatchesFilter(item: ContentItem, filterType: string) {
    filterType == "all" || item.Kind() == filterType
  }

  predicate Shown(item: ContentItem, term: string, filterType: string) {
    MatchesSearch(item, term) && MatchesFilter(item, filterType)
  }

  /** `filteredContent`. */
  function Filtered(content: seq<ContentItem>, term: string, filterType: string): (r: seq<ContentItem>)
    ensures |r| <= |content|
    ensures forall i :: 0 <= i < |r| ==> Shown(r[i], term, filterType)
  {
    if content == [] then []
    else (if Shown(content[0], term, filterType) then [content[0]] else [])
         + Filtered(content[1..], term, filterType)
  }

  /** The filter keeps the survivors in gallery order. */
  lemma {:induction false} FilteredIsSubsequence(content: seq<ContentItem>, term: string, filterType: string)
    ensures IsSubsequence(Filtered(content, term, filterType), content)
  {
    if content != [] {
      FilteredIsSubsequence(content[1..], term, filterType);
      var r := Filtered(content, term, filterType);
      if Shown(content[0], term, filterType) {
        assert r[1..] == Filtered(content[1..], term, filterType);
      } else {
        assert r == Filtered(content[1..], term, filterType);
      }
    }
  }

  /** An item is on screen exactly when it is in the gallery and passes both tests. */
  lemma {:induction false} FilteredMembership(content: seq<ContentItem>, term: string, filterType: string,
                                              x: ContentItem)
    ensures x in Filtered(content, term, filterType) <==> x in content && Shown(x, term, filterType)
  {
    if content != [] {
      FilteredMembership(content[1..], term, filterType, x);
      assert content == [content[0]] + content[1..];
    }
  }

  /** With an empty search and the "all" filter the gallery shows everything, in
      order. */
  lemma {:induction false} NoFilterShowsAll(content: seq<ContentItem>)
    ensures Filtered(content, [], "all") == content
  {
    if content != [] {
      NoFilterShowsAll(content[1..]);
      assert [content[0]] + content[1..] == content;
    }
  }

  /** With a type filter every item shown has that type. */
  lemma FilteredHaveType(content: seq<ContentItem>, term: string, filterType: string, i: nat)
    requires filterType != "all" && i < |Filtered(content, term, filterType)|
    ensures Filtered(content, term, filterType)[i].Kind() == filterType
  {
  }

  /** A non-empty search never matches through a field the item lacks: a text item
      matches only through its topic or its text, an image or video only through its
      prompt. */
  lemma SearchUsesPresentFields(item: ContentItem, term: string)
    requires term != []
    ensures item.Text? ==> (MatchesSearch(item, term) <==>
              Contains(ToLower(item.topic), ToLower(term)) || Contains(ToLower(item.content), ToLower(term)))
    ensures !item.Text? ==> (MatchesSearch(item, term) <==> Contains(ToLower(item.prompt), ToLower(term)))
  {
  }

  /** The search ignores ASCII case in the term. */
  lemma SearchIgnoresCase(item: ContentItem, term: string)
    ensures MatchesSearch(item, term) <==> MatchesSearch(item, ToLower(term)) || term == []
  {
    ToLowerIdempotent(term);
  }

  lemma ToLowerIdempotent(s: string)
    ensures ToLower(ToLower(s)) == ToLower(s)
    ensures ToLower(s) == [] <==> s == []
  {
  }

  /** `content.filter(item => item.type === kind).length`. */
  function CountKind(content: seq<ContentItem>, kind: string): (n: nat)
    ensures n <= |content|
  {
    if content == [] then 0
    else (if content[0].Kind() == kind then 1 else 0) + CountKind(content[1..], kind)
  }

  /** The counters: images and texts together never exceed the total, since video items
      count as neither, and with no search the type filter shows exactly as many items
      as the counter says. */
  lemma {:induction false} CountersAgree(content: seq<ContentItem>, kind: string)
    requires kind != "all"
    ensures CountKind(content, "image") + CountKind(content, "text") <= |content|
    ensures CountKind(content, kind) == |Filtered(content, [], kind)|
  {
    if content != [] {
      CountersAgree(content[1..], kind);
    }
  }

  /** Adding a video raises neither counter but raises the total. */
  lemma VideosCountAsNeither(content: seq<ContentItem>, v: ContentItem)
    requires v.Video?
    ensures CountKind([v] + content, "image") == CountKind(content, "image")
    ensures CountKind([v] + content, "text") == CountKind(content, "text")
  {
    assert ([v] + content)[1..] == content;
  }

  /** The name `downloadContent` gives the file. */
  function DownloadName(item: ContentItem): (name: string)
    ensures item.Image? ==> name == "shadow-empire-" + Decimal(item.id) + ".jpg"
    ensures !item.Image? ==> name == "shadow-empire-text-" + Decimal(item.id) + ".txt"
  {
    if item.Image? then "shadow-empire-" + Decimal(item.id) + ".jpg"
    else "shadow-empire-text-" + Decimal(item.id) + ".txt"
  }

  /** The third character from the end tells an image's name from any other. */
  lemma NameEndsWithKind(item: ContentItem)
    ensures |DownloadName(item)| >= 3
    ensures DownloadName(item)[|DownloadName(item)| - 3] == if item.Image? then 'j' else 't'
  {
  }

  /** Two downloads get the same file name only when both are images or both are not,
      and they share an id. */
  lemma DownloadNamesDistinguish(a: ContentItem, b: ContentItem)
    requires DownloadName(a) == DownloadName(b)
    ensures a.Image? <==> b.Image?
    ensures a.id == b.id
  {
    NameEndsWithKind(a);
    NameEndsWithKind(b);
    var na := DownloadName(a);
    var da := Decimal(a.id);
    var db := Decimal(b.id);
    if a.Image? && b.Image? {
      assert na[14..|na| - 4] == da;
      assert DownloadName(b)[14..|na| - 4] == db;
    } else if !a.Image? && !b.Image? {
      assert na[19..|na| - 4] == da;
      assert DownloadName(b)[19..|na| - 4] == db;
    }
    if da == db {
      DecimalValue(a.id);
      DecimalValue(b.id);
    }
  }

  /** What a card's preview box shows. */
  datatype Preview = Picture(src: Json) | Clip(src: Json) | Snippet(text: string)

  /** The snippet length of a text card. */
  const SnippetLength: nat := 150

  /** What follows the snippet of a text card. */
  const Ellipsis := "..."

  /** The preview box as written: an image for image items, otherwise
      `item.content.substring(0, 150)` followed by "..."; `None` where that expression
      throws, which is every video item, whose `content` is undefined. */
  function PreviewAsWritten(item: ContentItem): (r: Option<Preview>)
    ensures r.None? <==> item.Video?
  {
    if item.Image? then Some(Picture(item.url))
    else match item.ContentField()
      case Some(text) => Some(Snippet(text[..if |text| < SnippetLength then |text| else SnippetLength] + Ellipsis))
      case None => None
  }

  /** A gallery holding a single generated video cannot render its card. */
  lemma VideoCardThrows(id: nat, url: Json, prompt: string, at: string)
    ensures PreviewAsWritten(Video(id, url, prompt, at)).None?
    ensures Filtered([Video(id, url, prompt, at)], [], "all") == [Video(id, url, prompt, at)]
  {
    NoFilterShowsAll([Video(id, url, prompt, at)]);
  }

  /** The preview box with video items shown as videos, as the rest of the studio does
      with `generatedVideo`: every item gets a preview, and text items still show the
      first min(150, length) characters followed by "...". */
  function CardPreview(item: ContentItem): (r: Preview)
    ensures item.Image? ==> r == Picture(item.url)
    ensures item.Video? ==> r == Clip(item.url)
    ensures item.Text? ==> r.Snippet?
    ensures item.Text? ==> |r.text| == 3 + if |item.content| < SnippetLength then |item.content| else SnippetLength
    ensures item.Text? ==> r.text == item.content[..|r.text| - 3] + "..."
  {
    match item
    case Image(_, url, _, _) => Picture(url)
    case Video(_, url, _, _) => Clip(url)
    case Text(_, text, _, _, _, _) => Snippet(text[..if |text| < SnippetLength then |text| else SnippetLength] + Ellipsis)
  }

  /** The corrected preview agrees with the code wherever the code does not throw. */
  lemma CardPreviewExtendsAsWritten(item: ContentItem)
    ensures PreviewAsWritten(item).Some? ==> PreviewAsWritten(item).value == CardPreview(item)
  {
  }
}
