/** The Telegram adapter: text messages, single photos, media groups (albums) and messages
    with a link preview, all sent to one chat by one bot. Every network reply is an input;
    each call becomes a `Request`. */
module Telegram {
  import opened Wrappers
  import opened Http
  import opened Hashtags

  /** The manager's state: the bot token (part of every URL) and the chat every message goes to. */
  datatype TelegramManager = TelegramManager(botToken: string, chatId: string)

  function BaseUrl(m: TelegramManager): string {
    "https://api.telegram.org/bot" + m.botToken
  }

  function MessagePayload(m: TelegramManager, text: string, disablePreview: bool): Json {
    Obj(map["chat_id" := Str(m.chatId), "text" := Str(text), "disable_web_page_preview" := Bool(disablePreview)])
  }

  /** The text field of a `sendMessage` request, when it has one. */
  function SentText(req: Request): Option<string> {
    if req.payload.Body? && req.payload.json.Obj? && "text" in req.payload.json.fields
       && req.payload.json.fields["text"].Str?
    then Some(req.payload.json.fields["text"].s) else None
  }

  /** `send_message`: one `sendMessage` call to the manager's chat with the formatted text: the
      given text comes first, and more follows exactly when tags are given. */
  function SendMessage(m: TelegramManager, text: string, hashtags: Option<seq<string>>, disablePreview: bool,
                       reply: Json): (e: Exchange)
    ensures |e.requests| == 1 && e.result == reply
    ensures e.requests[0].verb == Post && e.requests[0].url == BaseUrl(m) + "/sendMessage"
    ensures SentText(e.requests[0]).Some?
    ensures var sent := SentText(e.requests[0]).value;
      && |sent| >= |text| && sent[..|text|] == text
      && (|sent| > |text| <==> HasItems(hashtags))
  {
    Exchange([Request(Post, BaseUrl(m) + "/sendMessage",
                      Body(MessagePayload(m, FormatTextWithHashtags(text, hashtags), disablePreview)))], reply)
  }

  /** `send_message` sends the text unchanged without tags, and otherwise the text followed by a
      blank line and the normalised tags. */
  lemma SendMessageText(m: TelegramManager, text: string, hashtags: Option<seq<string>>, disablePreview: bool,
                        reply: Json)
    ensures var e := SendMessage(m, text, hashtags, disablePreview, reply);
      && |e.requests| == 1
      && e.requests[0].payload == Body(MessagePayload(m, if HasItems(hashtags) then text + "\n\n" + TagLine(hashtags.value) else text, disablePreview))
  {
  }

  // Photos

  /** The caption `send_photo` computes: the formatted caption when there is one, the tag
      line formatted onto "" when there are only tags, and nothing otherwise. */
  function PhotoCaption(caption: Option<string>, hashtags: Option<seq<string>>): (c: Option<string>)
    ensures IsTruthy(c) <==> IsTruthy(caption) || HasItems(hashtags)
    ensures IsTruthy(caption) ==> c == Some(FormatTextWithHashtags(caption.value, hashtags))
    ensures !IsTruthy(caption) && HasItems(hashtags) ==> c == Some("\n\n" + TagLine(hashtags.value))
  {
    if IsTruthy(caption) then Some(FormatTextWithHashtags(caption.value, hashtags))
    else if HasItems(hashtags) then Some(FormatTextWithHashtags("", hashtags))
    else None
  }

  /** The body of a `sendPhoto` call: chat and photo, and a caption exactly when the computed
      caption is non-empty. */
  function PhotoPayload(m: TelegramManager, photoUrl: string, caption: Option<string>,
                        hashtags: Option<seq<string>>): (body: map<string, Json>)
    ensures body.Keys == if IsTruthy(caption) || HasItems(hashtags) then {"chat_id", "photo", "caption"}
                         else {"chat_id", "photo"}
    ensures body["chat_id"] == Str(m.chatId) && body["photo"] == Str(photoUrl)
    ensures "caption" in body ==> body["caption"] == Str(PhotoCaption(caption, hashtags).value)
  {
    var formatted := PhotoCaption(caption, hashtags);
    var body := map["chat_id" := Str(m.chatId), "photo" := Str(photoUrl)];
    if IsTruthy(formatted) then body["caption" := Str(formatted.value)] else body
  }

  /** `send_photo`: build the payload, add the caption only when it is non-empty, send it. */
  method SendPhoto(m: TelegramManager, photoUrl: string, caption: Option<string>, hashtags: Option<seq<string>>,
                   reply: Json) returns (e: Exchange)
    ensures e == Exchange([Request(Post, BaseUrl(m) + "/sendPhoto", Body(Obj(PhotoPayload(m, photoUrl, caption, hashtags))))], reply)
  {
    var formattedCaption: Option<string>;
    if IsTruthy(caption) {
      formattedCaption := Some(FormatTextWithHashtags(caption.value, hashtags));
    } else {
      formattedCaption := if HasItems(hashtags) then Some(FormatTextWithHashtags("", hashtags)) else None;
    }
    var payload := map["chat_id" := Str(m.chatId), "photo" := Str(photoUrl)];
    if IsTruthy(formattedCaption) {
      payload := payload["caption" := Str(formattedCaption.value)];
    }
    e := Exchange([Request(Post, BaseUrl(m) + "/sendPhoto", Body(Obj(payload)))], reply);
  }

  // Media groups

  const TooFewMessage: string := "Media group requires at least 2 images"
  const TooManyMessage: string := "Telegram supports max 10 media items per group"

  /** The caption a media group carries: computed only when the caption or the tags are
      truthy, from `caption or ""`. */
  function GroupCaption(caption: Option<string>, hashtags: Option<seq<string>>): (c: Option<string>)
    ensures c.Some? <==> IsTruthy(caption) || HasItems(hashtags)
    ensures IsTruthy(c) <==> IsTruthy(caption) || HasItems(hashtags)
    ensures c.Some? ==> c.value == FormatTextWithHashtags(if IsTruthy(caption) then caption.value else "", hashtags)
  {
    if IsTruthy(caption) then Some(FormatTextWithHashtags(caption.value, hashtags))
    else if HasItems(hashtags) then
      FormatWithTags("", hashtags.value);
      Some(FormatTextWithHashtags("", hashtags))
    else None
  }

  /** One album item: a photo, with a caption when one is given and non-empty. */
  function MediaItem(url: string, caption: Option<string>): (item: Json)
    ensures item.Obj? && "type" in item.fields && "media" in item.fields
    ensures item.fields["type"] == Str("photo") && item.fields["media"] == Str(url)
    ensures "caption" in item.fields <==> IsTruthy(caption)
    ensures "caption" in item.fields ==> item.fields["caption"] == Str(caption.value)
  {
    var fields := map["type" := Str("photo"), "media" := Str(url)];
    Obj(if IsTruthy(caption) then fields["caption" := Str(caption.value)] else fields)
  }

  /** The album: one item per URL, in order, the first carrying the caption. */
  function GroupItems(urls: seq<string>, caption: Option<string>): (items: seq<Json>)
    ensures |items| == |urls|
  {
    seq(|urls|, i requires 0 <= i < |urls| => MediaItem(urls[i], if i == 0 then caption else None))
  }

  function MediaGroupRequest(m: TelegramManager, items: seq<Json>): Request {
    Request(Post, BaseUrl(m) + "/sendMediaGroup",
            Body(Obj(map["chat_id" := Str(m.chatId), "media" := Arr(items)])))
  }

  /** `send_media_group` with the reply given: refuse fewer than 2 or more than 10 URLs without
      a call, else send the album. */
  function MediaGroupPlan(m: TelegramManager, mediaUrls: Option<seq<string>>, caption: Option<string>,
                          hashtags: Option<seq<string>>, reply: Json): (e: Exchange)
    ensures e.requests == [] <==> !HasItems(mediaUrls) || |mediaUrls.value| < 2 || |mediaUrls.value| > 10
    ensures (!HasItems(mediaUrls) || |mediaUrls.value| < 2) ==> e.result == ErrorObject(TooFewMessage)
    ensures HasItems(mediaUrls) && |mediaUrls.value| > 10 ==> e.result == ErrorObject(TooManyMessage)
    ensures e.requests != [] ==> e.result == reply
  {
    if !HasItems(mediaUrls) || |mediaUrls.value| < 2 then Exchange([], ErrorObject(TooFewMessage))
    else if |mediaUrls.value| > 10 then Exchange([], ErrorObject(TooManyMessage))
    else Exchange([MediaGroupRequest(m, GroupItems(mediaUrls.value, GroupCaption(caption, hashtags)))], reply)
  }

  /** `send_media_group`: check the count, compute the caption, then build the album item by
      item, adding the caption to the first item only. */
  method SendMediaGroup(m: TelegramManager, mediaUrls: Option<seq<string>>, caption: Option<string>,
                        hashtags: Option<seq<string>>, reply: Json) returns (e: Exchange)
    ensures e == MediaGroupPlan(m, mediaUrls, caption, hashtags, reply)
  {
    if !HasItems(mediaUrls) || |mediaUrls.value| < 2 {
      return Exchange([], ErrorObject(TooFewMessage));
    }
    if |mediaUrls.value| > 10 {
      return Exchange([], ErrorObject(TooManyMessage));
    }
    var urls := mediaUrls.value;
    var formattedCaption: Option<string> := None;
    if IsTruthy(caption) || HasItems(hashtags) {
      formattedCaption := Some(FormatTextWithHashtags(if IsTruthy(caption) then caption.value else "", hashtags));
    }
    var media: seq<Json> := [];
    for idx := 0 to |urls|
      invariant |media| == idx
      invariant forall j :: 0 <= j < idx ==> media[j] == MediaItem(urls[j], if j == 0 then formattedCaption else None)
    {
      var mediaItem := map["type" := Str("photo"), "media" := Str(urls[idx])];
      if idx == 0 && IsTruthy(formattedCaption) {
        mediaItem := mediaItem["caption" := Str(formattedCaption.value)];
      }
      media := media + [Obj(mediaItem)];
    }
    assert media == GroupItems(urls, GroupCaption(caption, hashtags));
    e := Exchange([MediaGroupRequest(m, media)], reply);
  }

  /** An accepted album has one photo item per URL, in order; only the first may carry a
      caption, and it does exactly when the caption or the tags are truthy. */
  lemma MediaGroupShape(m: TelegramManager, urls: seq<string>, caption: Option<string>,
                        hashtags: Option<seq<string>>, reply: Json)
    requires 2 <= |urls| <= 10
    ensures var e := MediaGroupPlan(m, Some(urls), caption, hashtags, reply);
      && |e.requests| == 1
      && e.requests[0].payload.Body?
      && var body := e.requests[0].payload.json;
      && body.Obj? && "media" in body.fields && body.fields["media"].Arr?
      && var items := body.fields["media"].items;
      && |items| == |urls|
      && (forall i :: 0 <= i < |urls| ==>
            items[i].Obj? && "type" in items[i].fields && "media" in items[i].fields
            && items[i].fields["type"] == Str("photo") && items[i].fields["media"] == Str(urls[i]))
      && (forall i :: 1 <= i < |urls| ==> items[i].Obj? && "caption" !in items[i].fields)
      && items[0].Obj? && ("caption" in items[0].fields <==> IsTruthy(caption) || HasItems(hashtags))
      && ("caption" in items[0].fields ==>
            items[0].fields["caption"] ==
              Str(FormatTextWithHashtags(if IsTruthy(caption) then caption.value else "", hashtags)))
  {
    var items := GroupItems(urls, GroupCaption(caption, hashtags));
    assert items[0] == MediaItem(urls[0], GroupCaption(caption, hashtags));
  }

  /** With only tags, the first item's caption is the blank line and the tag line. */
  lemma MediaGroupTagsOnlyCaption(caption: Option<string>, tags: seq<string>)
    requires !IsTruthy(caption) && tags != []
    ensures GroupCaption(caption, Some(tags)) == Some("\n\n" + TagLine(tags))
  {
  }

  // Links

  /** `send_link_with_preview`: the text, a blank line and the link, then the tags when any
      are given; the preview is always enabled. */
  function SendLinkWithPreview(m: TelegramManager, text: string, linkUrl: string, hashtags: Option<seq<string>>,
                               reply: Json): (e: Exchange)
    ensures |e.requests| == 1 && e.result == reply
    ensures e.requests[0].url == BaseUrl(m) + "/sendMessage"
    ensures e.requests[0].payload.Body? && e.requests[0].payload.json.Obj?
    ensures var f := e.requests[0].payload.json.fields;
      "disable_web_page_preview" in f && f["disable_web_page_preview"] == Bool(false)
    ensures SentText(e.requests[0]).Some?
    ensures var sent := SentText(e.requests[0]).value;
      var head := text + "\n\n" + linkUrl;
      && |sent| >= |head| && sent[..|head|] == head
      && (|sent| > |head| <==> HasItems(hashtags))
  {
    var formattedText := text + "\n\n" + linkUrl;
    var formattedText := if HasItems(hashtags) then FormatTextWithHashtags(formattedText, hashtags) else formattedText;
    Exchange([Request(Post, BaseUrl(m) + "/sendMessage", Body(MessagePayload(m, formattedText, false)))], reply)
  }

  /** A link message is a plain message, preview enabled, whose text is the text, a blank line
      and the link; the tags come after the link. */
  lemma LinkMessageIsMessage(m: TelegramManager, text: string, linkUrl: string, hashtags: Option<seq<string>>,
                             reply: Json)
    ensures SendLinkWithPreview(m, text, linkUrl, hashtags, reply) ==
      SendMessage(m, text + "\n\n" + linkUrl, hashtags, false, reply)
    ensures var sent := FormatTextWithHashtags(text + "\n\n" + linkUrl, hashtags);
      |sent| >= |text| + 2 + |linkUrl| && sent[..|text| + 2 + |linkUrl|] == text + "\n\n" + linkUrl
  {
  }
}
