/** The channel registry: a fixed table from channel name to upstream webhook, and a
    lookup that fails on a name it does not hold. */
module Registry {
  import opened Js

  datatype Webhook = Webhook(url: string, description: string)

  const SocialMediaUrl := "https://workflow.ccbp.in/webhook-test/effd5adb-e750-4d4b-8fc9-03def3e32aa8"
  const PodcastUrl := "https://workflow.ccbp.in/webhook-test/aea3b229-b06c-454d-9b8c-4ecfd18c899f"
  const ThumbnailUrl := "https://workflow.ccbp.in/webhook-test/b0415874-6381-4d46-8a31-015828436686"

  /** The registry, fixed at start-up and never written. */
  const Webhooks: map<string, Webhook> := map[
    "social-media" := Webhook(SocialMediaUrl, "Social Media Post Generator"),
    "podcast" := Webhook(PodcastUrl, "Podcast Generator"),
    "thumbnail" := Webhook(ThumbnailUrl, "Thumbnail Generator")
  ]

  /** The message of the error a failed lookup throws. */
  function InvalidTypeMessage(webhookType: string): string {
    "Invalid webhook type: " + webhookType
  }

  /** The upstream URL of a registered channel; an Error for any other name. */
  function GetWebhookUrl(webhookType: string): (r: Result<string>)
    ensures r.Ok? <==> webhookType in Webhooks
    ensures r.Ok? ==> r.value == Webhooks[webhookType].url
    ensures r.Err? ==> r.error == NewError(InvalidTypeMessage(webhookType))
  {
    if webhookType !in Webhooks then
      Err(NewError(InvalidTypeMessage(webhookType)))
    else
      Ok(Webhooks[webhookType].url)
  }

  /** Exactly three channels are registered, each with a URL and a description. */
  lemma RegistryShape()
    ensures Webhooks.Keys == {"social-media", "podcast", "thumbnail"}
    ensures forall k | k in Webhooks :: Webhooks[k].url != "" && Webhooks[k].description != ""
  {
  }

  /** Lookup is an exact match on the name: it succeeds for the three registered names
      and for no other string, with no trimming or case folding. */
  lemma LookupIsExact(webhookType: string)
    ensures GetWebhookUrl(webhookType).Ok?
        <==> webhookType == "social-media" || webhookType == "podcast" || webhookType == "thumbnail"
  {
  }

  /** Variants of a registered name (padded, capitalised) are misses. */
  lemma NearMissesFail()
    ensures GetWebhookUrl(" podcast").Err?
    ensures GetWebhookUrl("Podcast").Err?
    ensures GetWebhookUrl("social_media").Err?
  {
    assert " podcast"[0] == ' ';
    assert "Podcast"[0] == 'P';
    assert "social_media"[6] == '_';
  }

  /** No two channels share an upstream URL. */
  lemma ChannelUrlsDistinct(a: string, b: string)
    requires a in Webhooks && b in Webhooks && a != b
    ensures Webhooks[a].url != Webhooks[b].url
  {
    assert SocialMediaUrl[38] == 'e' && PodcastUrl[38] == 'a' && ThumbnailUrl[38] == 'b';
  }
}
