/** The social publisher: a toggle over the chosen platform ids, and a publish action
    that refuses without content or platforms, optionally posts to a webhook, and resets
    the form only on success. */
module Social {
  import opened Wrappers
  import opened Content

  /** The ids of the six platform buttons. */
  const PlatformIds: seq<string> := ["instagram", "twitter", "facebook", "linkedin", "youtube", "tiktok"]

  /** `ids.filter(x => x !== id)`. */
  function Without(ids: seq<string>, id: string): (r: seq<string>)
    ensures |r| <= |ids|
    ensures forall x :: x in r <==> x in ids && x != id
  {
    if ids == [] then []
    else (if ids[0] == id then [] else [ids[0]]) + Without(ids[1..], id)
  }

  /** A list in which no id appears twice. */
  predicate NoDuplicates(ids: seq<string>) {
    forall i, j :: 0 <= i < j < |ids| ==> ids[i] != ids[j]
  }

  /** `togglePlatform`: drop the id when present, otherwise append it. */
  function Toggle(ids: seq<string>, id: string): (r: seq<string>)
    ensures id in ids ==> r == Without(ids, id)
    ensures id !in ids ==> r == ids + [id]
  {
    if id in ids then Without(ids, id) else ids + [id]
  }

  /** Removing an id that is not there changes nothing. */
  lemma {:induction false} WithoutAbsent(ids: seq<string>, id: string)
    requires id !in ids
    ensures Without(ids, id) == ids
  {
    if ids != [] {
      WithoutAbsent(ids[1..], id);
      assert [ids[0]] + ids[1..] == ids;
    }
  }

  /** Removal distributes over concatenation. */
  lemma {:induction false} WithoutAppend(a: seq<string>, b: seq<string>, id: string)
    ensures Without(a + b, id) == Without(a, id) + Without(b, id)
  {
    if a != [] {
      WithoutAppend(a[1..], b, id);
      assert (a + b)[1..] == a[1..] + b;
    } else {
      assert a + b == b;
    }
  }

  /** Removal keeps a duplicate-free list duplicate-free. */
  lemma {:induction false} WithoutNoDuplicates(ids: seq<string>, id: string)
    requires NoDuplicates(ids)
    ensures NoDuplicates(Without(ids, id))
  {
    if ids != [] {
      WithoutNoDuplicates(ids[1..], id);
      var rest := Without(ids[1..], id);
      assert ids[0] !in ids[1..] by {
        forall k | 0 <= k < |ids[1..]| ensures ids[1..][k] != ids[0] {
          assert ids[1..][k] == ids[k + 1];
        }
      }
      if ids[0] != id {
        assert Without(ids, id) == [ids[0]] + rest;
        assert ids[0] !in rest;
      }
    }
  }

  /** After a toggle the id is selected exactly when it was not. */
  lemma ToggleFlips(ids: seq<string>, id: string)
    ensures id in Toggle(ids, id) <==> id !in ids
  {
  }

  /** A toggle leaves every other id where it was: with the toggled id removed, the
      list before and after are the same sequence. */
  lemma ToggleKeepsOthers(ids: seq<string>, id: string)
    ensures Without(Toggle(ids, id), id) == Without(ids, id)
  {
    if id !in ids {
      WithoutAppend(ids, [id], id);
      assert Without([id], id) == [];
      assert Without(ids, id) + [] == Without(ids, id);
    } else {
      WithoutAbsent(Without(ids, id), id);
    }
  }

  /** Toggling keeps the selection free of duplicates, and toggling an unselected id
      twice restores the selection exactly. */
  lemma ToggleNoDuplicatesAndUndo(ids: seq<string>, id: string)
    requires NoDuplicates(ids)
    ensures NoDuplicates(Toggle(ids, id))
    ensures id !in ids ==> Toggle(Toggle(ids, id), id) == ids
  {
    if id in ids {
      WithoutNoDuplicates(ids, id);
    } else {
      var r := ids + [id];
      assert forall i :: 0 <= i < |ids| ==> r[i] == ids[i];
      assert id in r;
      WithoutAppend(ids, [id], id);
      WithoutAbsent(ids, id);
      assert Without([id], id) == [];
      assert ids + [] == ids;
    }
  }

  /** What `publishContent` reports. */
  datatype PublishOutcome =
    | NoContent
    | NoPlatforms
    | PublishFailed
    | Published(scheduled: bool, platformCount: nat)
  {
    predicate Rejected() {
      NoContent? || NoPlatforms?
    }
  }

  /** The body of the webhook POST. */
  datatype WebhookPost = WebhookPost(
    url: string, content: ContentItem, platforms: seq<string>, scheduleTime: string, timestamp: string)

  /** A snapshot of the publisher's state. */
  datatype Publisher = Publisher(
    selectedContent: Option<ContentItem>,
    selectedPlatforms: seq<string>,
    scheduleTime: string,
    webhookUrl: string,
    isPublishing: bool)

  const InitialPublisher := Publisher(None, [], [], [], false)

  /** The outcome of `publishContent`, where `fetchFails` says whether the webhook
      request (made only for a non-empty URL) throws. */
  function PublishResult(p: Publisher, fetchFails: bool): (o: PublishOutcome)
    ensures o == NoContent <==> p.selectedContent.None?
    ensures o == NoPlatforms <==> p.selectedContent.Some? && p.selectedPlatforms == []
    ensures o == PublishFailed ==> p.webhookUrl != [] && fetchFails
    ensures p.selectedContent.Some? && p.selectedPlatforms != [] ==>
              (o == PublishFailed <==> p.webhookUrl != [] && fetchFails)
    ensures o.Published? ==> o.scheduled == (p.scheduleTime != []) && o.platformCount == |p.selectedPlatforms| > 0
  {
    if p.selectedContent.None? then NoContent
    else if |p.selectedPlatforms| == 0 then NoPlatforms
    else if p.webhookUrl != [] && fetchFails then PublishFailed
    else Published(p.scheduleTime != [], |p.selectedPlatforms|)
  }

  /** The state once `publishContent` has finished. */
  function AfterPublish(p: Publisher, fetchFails: bool): (r: Publisher)
    ensures PublishResult(p, fetchFails).Rejected() ==> r == p
    ensures PublishResult(p, fetchFails) == PublishFailed ==> r == p.(isPublishing := false)
    ensures PublishResult(p, fetchFails).Published? ==>
              r == p.(selectedPlatforms := [], scheduleTime := [], isPublishing := false)
  {
    match PublishResult(p, fetchFails)
    case NoContent => p
    case NoPlatforms => p
    case PublishFailed => p.(isPublishing := false)
    case Published(_, _) => p.(selectedPlatforms := [], scheduleTime := [], isPublishing := false)
  }

  /** The word the success message uses. */
  function SuccessWord(scheduled: bool): (w: string)
    ensures w == "programado" <==> scheduled
  {
    if scheduled then "programado" else "publicado"
  }

  /** Rejection changes nothing; every publish that gets past the checks ends with
      `isPublishing` false and keeps the selected content and the webhook URL; success
      empties the platform list and the schedule, failure keeps both. */
  lemma PublishKeepsAndResets(p: Publisher, fetchFails: bool)
    ensures var o := PublishResult(p, fetchFails);
            var r := AfterPublish(p, fetchFails);
            && r.selectedContent == p.selectedContent
            && r.webhookUrl == p.webhookUrl
            && (!o.Rejected() ==> !r.isPublishing)
            && (o.Published? <==> !o.Rejected() && r.selectedPlatforms == [] && r.scheduleTime == [])
            && (o == PublishFailed ==> r.selectedPlatforms == p.selectedPlatforms && r.scheduleTime == p.scheduleTime)
  {
  }

  /** The success message says "programado" exactly for a scheduled publication. */
  lemma ScheduledIffScheduleTime(p: Publisher, fetchFails: bool)
    requires PublishResult(p, fetchFails).Published?
    ensures SuccessWord(PublishResult(p, fetchFails).scheduled) == "programado" <==> p.scheduleTime != []
  {
  }

  /** Without a webhook URL the publication cannot fail. */
  lemma NoWebhookNeverFails(p: Publisher, fetchFails: bool)
    requires p.webhookUrl == []
    ensures PublishResult(p, fetchFails) == PublishResult(p, false)
    ensures PublishResult(p, fetchFails) != PublishFailed
  {
  }

  /** `disabled` on the publish button. */
  predicate PublishDisabled(p: Publisher) {
    p.isPublishing || p.selectedContent.None? || |p.selectedPlatforms| == 0
  }

  /** An enabled button is never refused: the button and the handler agree. */
  lemma EnabledButtonIsNotRejected(p: Publisher, fetchFails: bool)
    ensures !PublishDisabled(p) ==> !PublishResult(p, fetchFails).Rejected()
    ensures PublishResult(p, fetchFails).Rejected() ==> PublishDisabled(p)
  {
  }

  /** The publisher screen's local state. */
  class SocialPublisher {
    var selectedContent: Option<ContentItem>
    var selectedPlatforms: seq<string>
    var scheduleTime: string
    var webhookUrl: string
    var isPublishing: bool

    function State(): Publisher
      reads this
    {
      Publisher(selectedContent, selectedPlatforms, scheduleTime, webhookUrl, isPublishing)
    }

    constructor ()
      ensures State() == InitialPublisher
    {
      selectedContent := None;
      selectedPlatforms := [];
      scheduleTime := [];
      webhookUrl := [];
      isPublishing := false;
    }

    /** Clicking an item in the content list. */
    method SelectContent(item: ContentItem)
      modifies this
      ensures State() == old(State()).(selectedContent := Some(item))
    {
      selectedContent := Some(item);
    }

    /** Clicking a platform button. */
    method TogglePlatform(id: string)
      modifies this
      ensures State() == old(State()).(selectedPlatforms := Toggle(old(selectedPlatforms), id))
    {
      selectedPlatforms := Toggle(selectedPlatforms, id);
    }

    method SetScheduleTime(value: string)
      modifies this
      ensures State() == old(State()).(scheduleTime := value)
    {
      scheduleTime := value;
    }

    method SetWebhookUrl(value: string)
      modifies this
      ensures State() == old(State()).(webhookUrl := value)
    {
      webhookUrl := value;
    }

    /** `publishContent`, with the two-second timer as one step, the webhook's failure
        as the input `fetchFails` and the time stamp as `timestamp`. `post` is the
        request sent, if any. */
    method Publish(fetchFails: bool, timestamp: string) returns (o: PublishOutcome, post: Option<WebhookPost>)
      modifies this
      ensures o == PublishResult(old(State()), fetchFails)
      ensures State() == AfterPublish(old(State()), fetchFails)
      ensures post.Some? <==> !o.Rejected() && old(webhookUrl) != []
      ensures post.Some? ==> post.value == WebhookPost(old(webhookUrl), old(selectedContent).value,
                                                       old(selectedPlatforms), old(scheduleTime), timestamp)
    {
      post := None;
      if selectedContent.None? {
        return NoContent, None;
      }
      if |selectedPlatforms| == 0 {
        return NoPlatforms, None;
      }
      isPublishing := true;
      var failed := false;
      if webhookUrl != [] {
        post := Some(WebhookPost(webhookUrl, selectedContent.value, selectedPlatforms, scheduleTime, timestamp));
        failed := fetchFails;
      }
      if failed {
        o := PublishFailed;
      } else {
        o := Published(scheduleTime != [], |selectedPlatforms|);
        selectedPlatforms := [];
        scheduleTime := [];
      }
      isPublishing := false;
    }
  }
}
