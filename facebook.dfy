/** The Facebook page manager: comment filtering and the Facebook/Instagram publishing
    workflows. Every Graph API call is an abstract `Request`; what the API answers is an input. */
module Facebook {
  import opened Wrappers
  import opened Text
  import opened Seqs
  import opened Http

  const GraphApiBaseUrl: string := "https://graph.facebook.com/v18.0"

  /** Credentials fixed at construction: the page, its token and the optional Instagram
      business account. */
  datatype FacebookManager = FacebookManager(
    pageId: string,
    accessToken: string,
    instagramAccountId: Option<string>)

  /** `f"{GRAPH_API_BASE_URL}/{node}/{edge}"`. */
  function Endpoint(node: string, edge: string): string {
    GraphApiBaseUrl + "/" + node + "/" + edge
  }

  /** The Instagram account as an f-string renders it (`None` prints as "None"). */
  function IgAccount(m: FacebookManager): string {
    m.instagramAccountId.GetOr("None")
  }

  /** A Python `Optional[str]` placed in a parameter dictionary. */
  function OptStr(s: Option<string>): Json {
    if s.Some? then Str(s.value) else Null
  }

  // ---------------------------------------------------------------------------------------
  // Single-request operations

  /** `post_to_facebook`: a text post on the page feed. */
  function FeedPostRequest(m: FacebookManager, message: string): Request {
    Request(Post, Endpoint(m.pageId, "feed"),
      Query(map["message" := Str(message), "access_token" := Str(m.accessToken)]))
  }

  /** `reply_to_comment`: the post id is accepted but only the comment id is used. */
  function ReplyToCommentRequest(m: FacebookManager, commentId: string, message: string): Request {
    Request(Post, Endpoint(commentId, "comments"),
      Query(map["message" := Str(message), "access_token" := Str(m.accessToken)]))
  }

  /** `get_page_posts`. */
  function PagePostsRequest(m: FacebookManager): Request {
    Request(Get, Endpoint(m.pageId, "posts"),
      Query(map["access_token" := Str(m.accessToken), "fields" := Str("id,message,created_time")]))
  }

  /** `get_post_comments`. */
  function CommentsRequest(m: FacebookManager, postId: string): Request {
    Request(Get, Endpoint(postId, "comments"),
      Query(map["access_token" := Str(m.accessToken), "fields" := Str("id,message,from,created_time")]))
  }

  /** `delete_post` and `delete_comment`: both delete the object with the given id. */
  function DeleteRequest(m: FacebookManager, objectId: string): Request {
    Request(Delete, GraphApiBaseUrl + "/" + objectId, Query(map["access_token" := Str(m.accessToken)]))
  }

  // ---------------------------------------------------------------------------------------
  // Comments

  /** A comment as the Graph API returns it: the optional `message` and the fields the filter
      carries along untouched. */
  datatype Comment = Comment(message: Option<string>, otherFields: map<string, Json>)

  /** The decoded comments response: its `data` list, when the key is present. */
  datatype CommentsPage = CommentsPage(data: Option<seq<Comment>>)

  const NegativeKeywords: seq<string> :=
    ["bad", "terrible", "awful", "hate", "dislike", "problem", "issue"]

  /** The comment has a message whose lower-cased text contains one of the keywords. */
  predicate IsNegative(c: Comment) {
    && c.message.Some?
    && exists k :: 0 <= k < |NegativeKeywords| && Contains(Lower(c.message.value), NegativeKeywords[k])
  }

  /** What `filter_negative_comments` returns for a decoded comments response. */
  function NegativeComments(page: CommentsPage): seq<Comment> {
    if page.data.None? then [] else Filter(page.data.value, IsNegative)
  }

  /** The inner loop of `filter_negative_comments`: try the keywords in order and stop
      (`break`) at the first one found in the lower-cased message. */
  method MatchesNegativeKeyword(text: string) returns (found: bool)
    ensures found <==> exists k :: 0 <= k < |NegativeKeywords| && Contains(text, NegativeKeywords[k])
  {
    found := false;
    var k := 0;
    while k < |NegativeKeywords|
      invariant 0 <= k <= |NegativeKeywords|
      invariant forall j :: 0 <= j < k ==> !Contains(text, NegativeKeywords[j])
    {
      if Contains(text, NegativeKeywords[k]) {
        found := true;
        break;
      }
      k := k + 1;
    }
  }

  /** `filter_negative_comments`: scan the comments, and keep each one that has a message in
      which some keyword occurs, at most once. */
  method FilterNegativeComments(comments: CommentsPage) returns (negative: seq<Comment>)
    ensures negative == NegativeComments(comments)
    ensures comments.data.None? ==> negative == []
  {
    negative := [];
    if comments.data.Some? {
      var data := comments.data.value;
      for i := 0 to |data|
        invariant negative == Filter(data[..i], IsNegative)
      {
        var comment := data[i];
        assert data[..i + 1] == data[..i] + [comment];
        FilterSnoc(data[..i], comment, IsNegative);
        if comment.message.Some? {
          var isNegative := MatchesNegativeKeyword(Lower(comment.message.value));
          if isNegative {
            negative := negative + [comment];
          }
        }
      }
      assert data[..|data|] == data;
    }
  }

  /** Every kept comment comes from the input, has a message, and one of the seven keywords
      occurs in its lower-cased message; conversely every input comment of that kind is kept. */
  lemma NegativeCommentsMatchKeywords(page: CommentsPage, c: Comment)
    ensures c in NegativeComments(page) <==>
      && page.data.Some? && c in page.data.value
      && c.message.Some?
      && exists k, i :: 0 <= k < |NegativeKeywords| && OccursAt(Lower(c.message.value), NegativeKeywords[k], i)
  {
    if c.message.Some? {
      forall k | 0 <= k < |NegativeKeywords| {
        ContainsIffOccurs(Lower(c.message.value), NegativeKeywords[k]);
      }
    }
    if page.data.Some? && c in page.data.value && IsNegative(c) {
      FilterComplete(page.data.value, IsNegative, c);
    }
  }

  /** The output is the input comment list read at strictly increasing positions, exactly the
      positions of negative comments: input order is kept and no comment is taken twice, however
      many keywords it matches. */
  lemma NegativeCommentsInOrder(data: seq<Comment>) returns (pos: seq<nat>)
    ensures var out := NegativeComments(CommentsPage(Some(data)));
      && |pos| == |out|
      && (forall j :: 0 <= j < |pos| ==> pos[j] < |data| && out[j] == data[pos[j]])
      && (forall j, k :: 0 <= j < k < |pos| ==> pos[j] < pos[k])
      && (forall i :: 0 <= i < |data| ==> (IsNegative(data[i]) <==> i in pos))
  {
    pos := FilterPositions(data, IsNegative);
  }

  /** A negative comment appears in the output exactly as many times as in the input, any other
      comment not at all. */
  lemma NegativeCommentsCount(data: seq<Comment>, c: Comment)
    ensures multiset(NegativeComments(CommentsPage(Some(data))))[c] ==
      if IsNegative(c) then multiset(data)[c] else 0
  {
    FilterCount(data, IsNegative, c);
  }

  /** A response without `data` yields nothing, and a comment without `message` contributes
      nothing wherever it stands. */
  lemma MessagelessContributesNothing(before: seq<Comment>, c: Comment, after: seq<Comment>)
    requires c.message.None?
    ensures NegativeComments(CommentsPage(None)) == []
    ensures NegativeComments(CommentsPage(Some(before + [c] + after))) ==
      NegativeComments(CommentsPage(Some(before + after)))
  {
    assert !IsNegative(c);
    FilterSnoc(before, c, IsNegative);
    assert Filter(before + [c], IsNegative) == Filter(before, IsNegative);
    FilterConcat(before + [c], after, IsNegative);
    FilterConcat(before, after, IsNegative);
  }

  // ---------------------------------------------------------------------------------------
  // Replies of the Graph API and the outcome of one platform's workflow

  /** What the Graph API answers during one workflow: the `id` returned by the per-item call for
      the i-th URL (an unpublished photo, or an Instagram carousel child), the `id` returned by
      the call that creates the container to publish, and the decoded body of the last call.
      A per-item call past the end of `itemIds` gets a reply without an id. */
  datatype GraphReplies = GraphReplies(
    itemIds: seq<Option<string>>,
    containerId: Option<string>,
    final: Json)

  function ItemId(r: GraphReplies, i: nat): Option<string> {
    if i < |r.itemIds| then r.itemIds[i] else None
  }

  /** The ids returned by the per-item calls for the first `n` URLs. */
  function ItemIds(r: GraphReplies, n: nat): (ids: seq<Option<string>>)
    ensures |ids| == n
  {
    seq(n, i requires 0 <= i < n => ItemId(r, i))
  }

  /** The ids a loop keeps under `if photo_id:` / `if child_id:`, in call order. */
  function ReturnedIds(ids: seq<Option<string>>): (kept: seq<string>)
    ensures |kept| <= |ids|
  {
    var present := Filter(ids, IsTruthy);
    seq(|present|, j requires 0 <= j < |present| => assert present[j] in present; present[j].value)
  }

  lemma ReturnedIdsSnoc(ids: seq<Option<string>>, id: Option<string>)
    ensures ReturnedIds(ids + [id]) == ReturnedIds(ids) + (if IsTruthy(id) then [id.value] else [])
  {
    FilterSnoc(ids, id, IsTruthy);
  }

  /** The kept ids are the non-empty returned ids, in call order, each taken once. */
  lemma ReturnedIdsInOrder(ids: seq<Option<string>>) returns (pos: seq<nat>)
    ensures var kept := ReturnedIds(ids);
      && |pos| == |kept|
      && (forall j :: 0 <= j < |pos| ==> pos[j] < |ids| && ids[pos[j]] == Some(kept[j]))
      && (forall j, k :: 0 <= j < k < |pos| ==> pos[j] < pos[k])
      && (forall i :: 0 <= i < |ids| ==> (IsTruthy(ids[i]) <==> i in pos))
  {
    pos := FilterPositions(ids, IsTruthy);
    var present := Filter(ids, IsTruthy);
    forall j | 0 <= j < |pos|
      ensures ids[pos[j]] == Some(ReturnedIds(ids)[j])
    {
      assert present[j] in present;
    }
  }

  /** How one platform's workflow ended: with the decoded body of the last call, or with the
      text of the exception it raised. */
  datatype Outcome = Returned(body: Json) | Raised(message: string)

  /** The requests one workflow sent, in order, and how it ended. */
  datatype Attempt = Attempt(requests: seq<Request>, outcome: Outcome)

  /** The entry `post_media` stores for a platform: the body, or `{"error": str(e)}`. */
  function AsResult(o: Outcome): (j: Json)
    ensures o.Raised? ==> j == ErrorObject(o.message)
    ensures o.Returned? ==> j == o.body
  {
    match o
    case Returned(body) => body
    case Raised(message) => ErrorObject(message)
  }

  // ---------------------------------------------------------------------------------------
  // Facebook

  function PhotoRequest(m: FacebookManager, url: string, caption: string): Request {
    Request(Post, Endpoint(m.pageId, "photos"),
      Query(map["url" := Str(url), "caption" := Str(caption), "access_token" := Str(m.accessToken)]))
  }

  /** `_upload_fb_photo(url, published=False)`. */
  function UnpublishedPhotoRequest(m: FacebookManager, url: string): Request {
    Request(Post, Endpoint(m.pageId, "photos"),
      Query(map["url" := Str(url), "published" := Bool(false), "access_token" := Str(m.accessToken)]))
  }

  function UnpublishedUploads(m: FacebookManager, urls: seq<string>): (reqs: seq<Request>)
    ensures |reqs| == |urls|
  {
    seq(|urls|, i requires 0 <= i < |urls| => UnpublishedPhotoRequest(m, urls[i]))
  }

  /** The `attached_media` list for the given photo ids. */
  function AttachedMedia(photoIds: seq<string>): (media: seq<Json>)
    ensures |media| == |photoIds|
  {
    seq(|photoIds|, j requires 0 <= j < |photoIds| => Obj(map["media_fbid" := Str(photoIds[j])]))
  }

  /** The feed post that publishes an album, sent as a JSON body. */
  function AlbumRequest(m: FacebookManager, caption: string, attached: seq<Json>): Request {
    Request(Post, Endpoint(m.pageId, "feed"),
      Body(Obj(map["message" := Str(caption), "attached_media" := Arr(attached),
                   "access_token" := Str(m.accessToken)])))
  }

  function VideoRequest(m: FacebookManager, url: string, caption: string): Request {
    Request(Post, Endpoint(m.pageId, "videos"),
      Query(map["file_url" := Str(url), "description" := Str(caption), "access_token" := Str(m.accessToken)]))
  }

  datatype FacebookRoute = TextPost | SinglePhoto | PhotoAlbum | VideoPost | UnsupportedOnFacebook

  /** The branch `_post_to_facebook_complex` takes; "carousel" re-enters as "image". */
  function RouteFacebook(urls: seq<string>, mediaType: string): (route: FacebookRoute)
    ensures route == TextPost <==> urls == []
    ensures route == SinglePhoto ==> |urls| == 1
    ensures route == PhotoAlbum ==> |urls| > 1
    decreases if mediaType == "carousel" then 1 else 0
  {
    if urls == [] then TextPost
    else if mediaType == "image" then (if |urls| == 1 then SinglePhoto else PhotoAlbum)
    else if mediaType == "video" || mediaType == "reel" then VideoPost
    else if mediaType == "carousel" then RouteFacebook(urls, "image")
    else UnsupportedOnFacebook
  }

  /** What `_post_to_facebook_complex` sends and how it ends. */
  function FacebookPlan(m: FacebookManager, caption: string, urls: seq<string>, mediaType: string,
                        r: GraphReplies): Attempt
  {
    match RouteFacebook(urls, mediaType)
    case TextPost => Attempt([FeedPostRequest(m, caption)], Returned(r.final))
    case SinglePhoto => Attempt([PhotoRequest(m, urls[0], caption)], Returned(r.final))
    case PhotoAlbum =>
      Attempt(UnpublishedUploads(m, urls)
                + [AlbumRequest(m, caption, AttachedMedia(ReturnedIds(ItemIds(r, |urls|))))],
              Returned(r.final))
    case VideoPost => Attempt([VideoRequest(m, urls[0], caption)], Returned(r.final))
    case UnsupportedOnFacebook =>
      Attempt([], Raised("Unsupported media_type for Facebook: " + mediaType))
  }

  /** The upload loop of the album branch: every URL is uploaded unpublished, and each non-empty
      returned id is attached, in input order. */
  method UploadUnpublishedPhotos(m: FacebookManager, urls: seq<string>, r: GraphReplies)
    returns (uploads: seq<Request>, attached: seq<Json>)
    ensures uploads == UnpublishedUploads(m, urls)
    ensures attached == AttachedMedia(ReturnedIds(ItemIds(r, |urls|)))
  {
    uploads, attached := [], [];
    for i := 0 to |urls|
      invariant uploads == UnpublishedUploads(m, urls[..i])
      invariant attached == AttachedMedia(ReturnedIds(ItemIds(r, i)))
    {
      uploads := uploads + [UnpublishedPhotoRequest(m, urls[i])];
      var photoId := ItemId(r, i);
      assert ItemIds(r, i + 1) == ItemIds(r, i) + [photoId];
      ReturnedIdsSnoc(ItemIds(r, i), photoId);
      if IsTruthy(photoId) {
        attached := attached + [Obj(map["media_fbid" := Str(photoId.value)])];
      }
      assert UnpublishedUploads(m, urls[..i + 1]) == uploads;
    }
    assert urls[..|urls|] == urls;
  }

  /** `_post_to_facebook_complex`. */
  method PostToFacebookComplex(m: FacebookManager, caption: string, urls: seq<string>,
                               mediaType: string, r: GraphReplies) returns (a: Attempt)
    ensures a == FacebookPlan(m, caption, urls, mediaType, r)
    decreases if mediaType == "carousel" then 1 else 0
  {
    if urls == [] {
      return Attempt([FeedPostRequest(m, caption)], Returned(r.final));
    }
    if mediaType == "image" {
      if |urls| == 1 {
        a := Attempt([PhotoRequest(m, urls[0], caption)], Returned(r.final));
      } else {
        var uploads, attached := UploadUnpublishedPhotos(m, urls, r);
        a := Attempt(uploads + [AlbumRequest(m, caption, attached)], Returned(r.final));
      }
    } else if mediaType == "video" || mediaType == "reel" {
      a := Attempt([VideoRequest(m, urls[0], caption)], Returned(r.final));
    } else if mediaType == "carousel" {
      a := PostToFacebookComplex(m, caption, urls, "image", r);
    } else {
      a := Attempt([], Raised("Unsupported media_type for Facebook: " + mediaType));
    }
  }

  /** Without URLs every media type, even an unsupported one, becomes a plain feed post. */
  lemma FacebookWithoutUrlsPostsText(m: FacebookManager, caption: string, mediaType: string, r: GraphReplies)
    ensures FacebookPlan(m, caption, [], mediaType, r) == Attempt([FeedPostRequest(m, caption)], Returned(r.final))
  {
  }

  /** A Facebook carousel is handled exactly like an image post. */
  lemma FacebookCarouselIsImage(m: FacebookManager, caption: string, urls: seq<string>, r: GraphReplies)
    ensures FacebookPlan(m, caption, urls, "carousel", r) == FacebookPlan(m, caption, urls, "image", r)
  {
  }

  /** One image (or a one-image carousel) is posted directly as a published photo of the first
      URL with the caption. */
  lemma FacebookSinglePhoto(m: FacebookManager, caption: string, urls: seq<string>, mediaType: string,
                            r: GraphReplies)
    requires |urls| == 1 && mediaType in {"image", "carousel"}
    ensures FacebookPlan(m, caption, urls, mediaType, r) ==
      Attempt([PhotoRequest(m, urls[0], caption)], Returned(r.final))
  {
  }

  /** A reel is posted exactly like a video: one video upload of the first URL, whatever else
      the list holds, with the caption as description. */
  lemma FacebookReelIsVideo(m: FacebookManager, caption: string, urls: seq<string>, r: GraphReplies)
    requires urls != []
    ensures FacebookPlan(m, caption, urls, "reel", r) == FacebookPlan(m, caption, urls, "video", r)
    ensures FacebookPlan(m, caption, urls, "video", r) ==
      Attempt([VideoRequest(m, urls[0], caption)], Returned(r.final))
  {
  }

  /** An album uploads every URL unpublished, in order, then makes one feed post whose
      `attached_media` lists exactly the non-empty returned ids, in input order. */
  lemma FacebookAlbumShape(m: FacebookManager, caption: string, urls: seq<string>, mediaType: string,
                           r: GraphReplies) returns (pos: seq<nat>)
    requires mediaType == "image" || mediaType == "carousel"
    requires |urls| > 1
    ensures var a := FacebookPlan(m, caption, urls, mediaType, r);
      var ids := ItemIds(r, |urls|);
      var kept := ReturnedIds(ids);
      && |a.requests| == |urls| + 1
      && (forall i :: 0 <= i < |urls| ==> a.requests[i] == UnpublishedPhotoRequest(m, urls[i]))
      && a.requests[|urls|] == AlbumRequest(m, caption, AttachedMedia(kept))
      && a.outcome == Returned(r.final)
      && |pos| == |kept|
      && (forall j :: 0 <= j < |pos| ==> pos[j] < |urls| && ids[pos[j]] == Some(kept[j]))
      && (forall j, k :: 0 <= j < k < |pos| ==> pos[j] < pos[k])
      && (forall i :: 0 <= i < |urls| ==> (IsTruthy(ids[i]) <==> i in pos))
  {
    pos := ReturnedIdsInOrder(ItemIds(r, |urls|));
    var a := FacebookPlan(m, caption, urls, mediaType, r);
    assert RouteFacebook(urls, mediaType) == PhotoAlbum;
    var uploads := UnpublishedUploads(m, urls);
    forall i | 0 <= i < |urls|
      ensures a.requests[i] == UnpublishedPhotoRequest(m, urls[i])
    {
      assert a.requests[i] == uploads[i];
    }
  }

  /** With URLs, a media type other than image, carousel, video or reel raises `ValueError`
      before any request. */
  lemma FacebookUnsupportedRaises(m: FacebookManager, caption: string, urls: seq<string>, mediaType: string,
                                  r: GraphReplies)
    requires urls != []
    requires mediaType !in {"image", "carousel", "video", "reel"}
    ensures FacebookPlan(m, caption, urls, mediaType, r) ==
      Attempt([], Raised("Unsupported media_type for Facebook: " + mediaType))
  {
  }

  // ---------------------------------------------------------------------------------------
  // Instagram

  const NoContainerMessage: string := "Failed to create Instagram media container."
  const IndexErrorMessage: string := "list index out of range"

  /** The query parameters `_create_ig_container` builds. */
  function IgContainerParams(m: FacebookManager, imageUrl: Option<string>, videoUrl: Option<string>,
                             caption: Option<string>, isVideo: bool, isReel: bool,
                             isCarouselItem: bool): (params: map<string, Json>)
    ensures params.Keys <= {"access_token", "media_type", "video_url", "image_url", "caption", "is_carousel_item"}
    ensures "access_token" in params && params["access_token"] == Str(m.accessToken)
    ensures ("media_type" in params <==> isVideo) && ("video_url" in params <==> isVideo)
    ensures isVideo ==> params["media_type"] == Str(if isReel then "REELS" else "VIDEO")
    ensures isVideo ==> params["video_url"] == OptStr(videoUrl)
    ensures "image_url" in params <==> !isVideo
    ensures !isVideo ==> params["image_url"] == OptStr(imageUrl)
    ensures "caption" in params <==> IsTruthy(caption) && !isCarouselItem
    ensures "caption" in params ==> params["caption"] == Str(caption.value)
    ensures "is_carousel_item" in params <==> isCarouselItem
    ensures isCarouselItem ==> params["is_carousel_item"] == Bool(true)
  {
    var base := map["access_token" := Str(m.accessToken)];
    var media := if isVideo
      then base["media_type" := Str(if isReel then "REELS" else "VIDEO")]["video_url" := OptStr(videoUrl)]
      else base["image_url" := OptStr(imageUrl)];
    var captioned := if IsTruthy(caption) && !isCarouselItem then media["caption" := Str(caption.value)] else media;
    if isCarouselItem then captioned["is_carousel_item" := Bool(true)] else captioned
  }

  function IgContainerRequest(m: FacebookManager, imageUrl: Option<string>, videoUrl: Option<string>,
                              caption: Option<string>, isVideo: bool, isReel: bool,
                              isCarouselItem: bool): Request
  {
    Request(Post, Endpoint(IgAccount(m), "media"),
      Query(IgContainerParams(m, imageUrl, videoUrl, caption, isVideo, isReel, isCarouselItem)))
  }

  /** `_create_ig_container`: the parameter dictionary is filled in step by step. */
  method CreateIgContainer(m: FacebookManager, imageUrl: Option<string>, videoUrl: Option<string>,
                           caption: Option<string>, isVideo: bool, isReel: bool,
                           isCarouselItem: bool) returns (request: Request)
    ensures request == IgContainerRequest(m, imageUrl, videoUrl, caption, isVideo, isReel, isCarouselItem)
  {
    var params := map["access_token" := Str(m.accessToken)];
    if isVideo {
      params := params["media_type" := Str(if isReel then "REELS" else "VIDEO")];
      params := params["video_url" := OptStr(videoUrl)];
    } else {
      params := params["image_url" := OptStr(imageUrl)];
    }
    if IsTruthy(caption) && !isCarouselItem {
      params := params["caption" := Str(caption.value)];
    }
    if isCarouselItem {
      params := params["is_carousel_item" := Bool(true)];
    }
    request := Request(Post, Endpoint(IgAccount(m), "media"), Query(params));
  }

  /** One caption-less carousel child per URL. */
  function ChildContainerRequests(m: FacebookManager, urls: seq<string>): (reqs: seq<Request>)
    ensures |reqs| == |urls|
  {
    seq(|urls|, i requires 0 <= i < |urls| =>
      IgContainerRequest(m, Some(urls[i]), None, None, false, false, true))
  }

  /** `_create_ig_carousel_container`: the parent whose `children` is the comma-joined ids. */
  function IgCarouselRequest(m: FacebookManager, childIds: seq<string>, caption: string): Request {
    Request(Post, Endpoint(IgAccount(m), "media"),
      Query(map["media_type" := Str("CAROUSEL"), "children" := Str(Join(",", childIds)),
                "caption" := Str(caption), "access_token" := Str(m.accessToken)]))
  }

  function PublishRequest(m: FacebookManager, creationId: string): Request {
    Request(Post, Endpoint(IgAccount(m), "media_publish"),
      Query(map["creation_id" := Str(creationId), "access_token" := Str(m.accessToken)]))
  }

  /** The closing step of `_post_to_instagram`: publish the container when an id came back,
      otherwise raise `RuntimeError`. */
  function PublishOrFail(m: FacebookManager, sent: seq<Request>, containerId: Option<string>,
                         r: GraphReplies): Attempt
  {
    if IsTruthy(containerId) then Attempt(sent + [PublishRequest(m, containerId.value)], Returned(r.final))
    else Attempt(sent, Raised(NoContainerMessage))
  }

  datatype InstagramRoute = SingleImage | SingleVideo(isReel: bool) | Carousel | UnsupportedOnInstagram

  /** The branch `_post_to_instagram` takes, tested in the source's order. */
  function RouteInstagram(urls: seq<string>, mediaType: string): (route: InstagramRoute)
    ensures route == SingleImage ==> |urls| == 1
  {
    if mediaType == "image" && |urls| == 1 then SingleImage
    else if mediaType == "video" || mediaType == "reel" then SingleVideo(mediaType == "reel")
    else if mediaType == "carousel" || (mediaType == "image" && |urls| > 1) then Carousel
    else UnsupportedOnInstagram
  }

  /** What `_post_to_instagram` sends and how it ends. */
  function InstagramPlan(m: FacebookManager, caption: string, urls: seq<string>, mediaType: string,
                         r: GraphReplies): Attempt
  {
    match RouteInstagram(urls, mediaType)
    case SingleImage =>
      PublishOrFail(m, [IgContainerRequest(m, Some(urls[0]), None, Some(caption), false, false, false)],
                    r.containerId, r)
    case SingleVideo(isReel) =>
      if urls == [] then Attempt([], Raised(IndexErrorMessage))
      else PublishOrFail(m, [IgContainerRequest(m, None, Some(urls[0]), Some(caption), true, isReel, false)],
                         r.containerId, r)
    case Carousel =>
      var childIds := ReturnedIds(ItemIds(r, |urls|));
      if childIds == [] then PublishOrFail(m, ChildContainerRequests(m, urls), None, r)
      else PublishOrFail(m, ChildContainerRequests(m, urls) + [IgCarouselRequest(m, childIds, caption)],
                         r.containerId, r)
    case UnsupportedOnInstagram =>
      Attempt([], Raised("Unsupported media_type for Instagram: " + mediaType))
  }

  /** The child loop of the carousel branch: one child container per URL, keeping each
      non-empty returned id in input order. */
  method CreateCarouselChildren(m: FacebookManager, urls: seq<string>, r: GraphReplies)
    returns (children: seq<Request>, childIds: seq<string>)
    ensures children == ChildContainerRequests(m, urls)
    ensures childIds == ReturnedIds(ItemIds(r, |urls|))
  {
    children, childIds := [], [];
    for i := 0 to |urls|
      invariant children == ChildContainerRequests(m, urls[..i])
      invariant childIds == ReturnedIds(ItemIds(r, i))
    {
      var child := CreateIgContainer(m, Some(urls[i]), None, None, false, false, true);
      children := children + [child];
      var childId := ItemId(r, i);
      assert ItemIds(r, i + 1) == ItemIds(r, i) + [childId];
      ReturnedIdsSnoc(ItemIds(r, i), childId);
      if IsTruthy(childId) {
        childIds := childIds + [childId.value];
      }
      assert ChildContainerRequests(m, urls[..i + 1]) == children;
    }
    assert urls[..|urls|] == urls;
  }

  /** `_post_to_instagram`. */
  method PostToInstagram(m: FacebookManager, caption: string, urls: seq<string>, mediaType: string,
                         r: GraphReplies) returns (a: Attempt)
    ensures a == InstagramPlan(m, caption, urls, mediaType, r)
  {
    var sent: seq<Request> := [];
    var containerId: Option<string> := None;
    if mediaType == "image" && |urls| == 1 {
      var container := CreateIgContainer(m, Some(urls[0]), None, Some(caption), false, false, false);
      sent, containerId := [container], r.containerId;
    } else if mediaType == "video" || mediaType == "reel" {
      if urls == [] {
        return Attempt([], Raised(IndexErrorMessage));
      }
      var container := CreateIgContainer(m, None, Some(urls[0]), Some(caption), true, mediaType == "reel", false);
      sent, containerId := [container], r.containerId;
    } else if mediaType == "carousel" || (mediaType == "image" && |urls| > 1) {
      var childIds;
      sent, childIds := CreateCarouselChildren(m, urls, r);
      if childIds != [] {
        sent := sent + [IgCarouselRequest(m, childIds, caption)];
        containerId := r.containerId;
      }
    } else {
      return Attempt([], Raised("Unsupported media_type for Instagram: " + mediaType));
    }
    if IsTruthy(containerId) {
      a := Attempt(sent + [PublishRequest(m, containerId.value)], Returned(r.final));
    } else {
      a := Attempt(sent, Raised(NoContainerMessage));
    }
  }

  /** The request publishes a container. */
  predicate IsPublish(m: FacebookManager, req: Request) {
    req.url == Endpoint(IgAccount(m), "media_publish")
  }

  lemma ContainerCallIsNotPublish(m: FacebookManager, req: Request)
    requires req.url == Endpoint(IgAccount(m), "media")
    ensures !IsPublish(m, req)
  {
    assert |Endpoint(IgAccount(m), "media")| < |Endpoint(IgAccount(m), "media_publish")|;
  }

  /** Publishing happens exactly when the workflow returns, and then as its last request. */
  predicate PublishesOnlyOnSuccess(m: FacebookManager, a: Attempt, r: GraphReplies) {
    && (a.outcome.Returned? <==> exists i :: 0 <= i < |a.requests| && IsPublish(m, a.requests[i]))
    && (a.outcome.Returned? ==> IsPublish(m, a.requests[|a.requests| - 1]) && a.outcome.body == r.final)
    && (a.outcome.Raised? ==> forall i :: 0 <= i < |a.requests| ==> !IsPublish(m, a.requests[i]))
  }

  /** The closing step keeps that property when nothing before it published. */
  lemma PublishOrFailPublishesOnlyOnSuccess(m: FacebookManager, sent: seq<Request>, containerId: Option<string>,
                                            r: GraphReplies)
    requires forall i :: 0 <= i < |sent| ==> !IsPublish(m, sent[i])
    ensures PublishesOnlyOnSuccess(m, PublishOrFail(m, sent, containerId, r), r)
    ensures var a := PublishOrFail(m, sent, containerId, r);
      && (a.outcome.Returned? ==> IsTruthy(containerId) && a.requests == sent + [PublishRequest(m, containerId.value)])
      && (a.outcome.Raised? ==> a == Attempt(sent, Raised(NoContainerMessage)))
  {
    var a := PublishOrFail(m, sent, containerId, r);
    assert a.requests[..|sent|] == sent;
    if a.outcome.Returned? {
      assert IsPublish(m, a.requests[|a.requests| - 1]);
    }
  }

  /** Container calls, whichever they are, never publish. */
  lemma ContainerCallsDoNotPublish(m: FacebookManager, sent: seq<Request>)
    requires forall i :: 0 <= i < |sent| ==> sent[i].url == Endpoint(IgAccount(m), "media")
    ensures forall i :: 0 <= i < |sent| ==> !IsPublish(m, sent[i])
  {
    forall i | 0 <= i < |sent|
      ensures !IsPublish(m, sent[i])
    {
      ContainerCallIsNotPublish(m, sent[i]);
    }
  }

  /** Instagram publishes exactly when the workflow succeeds, and then only as its last
      request, publishing the container the last creation call returned: when no container id
      results, `RuntimeError` is raised after the container calls (an unsupported type or a
      missing URL raises earlier, before any call) and nothing is published. */
  lemma InstagramPublishesOnlyWithContainer(m: FacebookManager, caption: string, urls: seq<string>,
                                            mediaType: string, r: GraphReplies)
    ensures var a := InstagramPlan(m, caption, urls, mediaType, r);
      && (a.outcome.Returned? <==> exists i :: 0 <= i < |a.requests| && IsPublish(m, a.requests[i]))
      && (a.outcome.Returned? ==> IsPublish(m, a.requests[|a.requests| - 1]) && a.outcome.body == r.final)
      && (a.outcome.Raised? ==> forall i :: 0 <= i < |a.requests| ==> !IsPublish(m, a.requests[i]))
      && (a.outcome.Returned? ==>
            IsTruthy(r.containerId) && a.requests[|a.requests| - 1] == PublishRequest(m, r.containerId.value))
      && (a.outcome.Raised? && a.requests != [] ==> a.outcome == Raised(NoContainerMessage))
  {
    var route := RouteInstagram(urls, mediaType);
    if route == UnsupportedOnInstagram || (route.SingleVideo? && urls == []) {
      return;
    }
    var sent: seq<Request>;
    var containerId := r.containerId;
    if route == SingleImage {
      sent := [IgContainerRequest(m, Some(urls[0]), None, Some(caption), false, false, false)];
    } else if route.SingleVideo? {
      sent := [IgContainerRequest(m, None, Some(urls[0]), Some(caption), true, route.isReel, false)];
    } else {
      var childIds := ReturnedIds(ItemIds(r, |urls|));
      if childIds == [] {
        sent, containerId := ChildContainerRequests(m, urls), None;
      } else {
        sent := ChildContainerRequests(m, urls) + [IgCarouselRequest(m, childIds, caption)];
      }
    }
    assert InstagramPlan(m, caption, urls, mediaType, r) == PublishOrFail(m, sent, containerId, r);
    ContainerCallsDoNotPublish(m, sent);
    PublishOrFailPublishesOnlyOnSuccess(m, sent, containerId, r);
  }

  /** A carousel (or several images) creates one caption-less child per URL, flagged as a
      carousel item; the parent is created only when some child id came back, and then lists
      the kept ids comma-joined and carries the caption. */
  lemma InstagramCarouselShape(m: FacebookManager, caption: string, urls: seq<string>,
                               mediaType: string, r: GraphReplies)
    requires mediaType == "carousel" || (mediaType == "image" && |urls| > 1)
    ensures var a := InstagramPlan(m, caption, urls, mediaType, r);
      var childIds := ReturnedIds(ItemIds(r, |urls|));
      && |a.requests| >= |urls|
      && (forall i :: 0 <= i < |urls| ==>
            var p := a.requests[i].payload.params;
            && a.requests[i].payload.Query?
            && p["is_carousel_item"] == Bool(true) && p["image_url"] == Str(urls[i])
            && "caption" !in p)
      && (childIds == [] ==> a == Attempt(ChildContainerRequests(m, urls), Raised(NoContainerMessage)))
      && (childIds != [] ==> a.requests[|urls|] == IgCarouselRequest(m, childIds, caption))
  {
    var a := InstagramPlan(m, caption, urls, mediaType, r);
    assert a.requests[..|urls|] == ChildContainerRequests(m, urls);
    forall i | 0 <= i < |urls|
      ensures a.requests[i] == IgContainerRequest(m, Some(urls[i]), None, None, false, false, true)
    {
      assert a.requests[i] == a.requests[..|urls|][i];
    }
  }

  /** When the ids carry no comma, the parent's `children` field splits back into exactly the
      kept child ids, in order. */
  lemma CarouselChildrenListKeptIds(m: FacebookManager, childIds: seq<string>, caption: string)
    requires childIds != []
    requires forall k :: 0 <= k < |childIds| ==> ',' !in childIds[k]
    ensures var p := IgCarouselRequest(m, childIds, caption).payload.params;
      p["children"].Str? && Split(p["children"].s, ',') == childIds
  {
    SplitJoin(childIds, ',');
  }

  /** A single image or video publishes one container whose `media_type` is REELS exactly for
      a reel, VIDEO for a video and absent for an image. */
  lemma InstagramSingleContainer(m: FacebookManager, caption: string, urls: seq<string>,
                                 mediaType: string, r: GraphReplies)
    requires |urls| == 1 || (mediaType in {"video", "reel"} && |urls| >= 1)
    requires mediaType in {"image", "video", "reel"}
    ensures var a := InstagramPlan(m, caption, urls, mediaType, r);
      var p := a.requests[0].payload.params;
      && a.requests[0].payload.Query?
      && ("media_type" in p <==> mediaType != "image")
      && (mediaType == "reel" ==> p["media_type"] == Str("REELS"))
      && (mediaType == "video" ==> p["media_type"] == Str("VIDEO"))
      && (mediaType == "image" ==> p["image_url"] == Str(urls[0]))
      && (mediaType != "image" ==> "video_url" in p && p["video_url"] == Str(urls[0]))
      && ("caption" in p <==> caption != "")
      && (IsTruthy(r.containerId) <==> a.outcome.Returned?)
  {
  }

  /** An image post without URLs falls through to the unsupported-type `ValueError`; a video or
      reel without URLs fails indexing the first URL; neither sends anything. */
  lemma InstagramWithoutUrls(m: FacebookManager, caption: string, mediaType: string, r: GraphReplies)
    ensures InstagramPlan(m, caption, [], "image", r) ==
      Attempt([], Raised("Unsupported media_type for Instagram: image"))
    ensures mediaType in {"video", "reel"} ==>
      InstagramPlan(m, caption, [], mediaType, r) == Attempt([], Raised(IndexErrorMessage))
  {
    assert "image"[0] != "video"[0] && "image"[0] != "reel"[0] && "image"[0] != "carousel"[0];
    assert RouteInstagram([], "image") == UnsupportedOnInstagram;
    assert "Unsupported media_type for Instagram: " + "image" == "Unsupported media_type for Instagram: image";
  }

  // ---------------------------------------------------------------------------------------
  // post_media

  const IgNotConfiguredMessage: string := "INSTAGRAM_ACCOUNT_ID not configured."

  predicate IgConfigured(m: FacebookManager) {
    IsTruthy(m.instagramAccountId)
  }

  /** The Instagram side of `post_media`: refused without an account id, before any request. */
  function InstagramAttempt(m: FacebookManager, caption: string, urls: seq<string>, mediaType: string,
                            r: GraphReplies): (a: Attempt)
    ensures !IgConfigured(m) ==> a.requests == [] && AsResult(a.outcome) == ErrorObject(IgNotConfiguredMessage)
  {
    if !IgConfigured(m) then Attempt([], Raised(IgNotConfiguredMessage))
    else InstagramPlan(m, caption, urls, mediaType, r)
  }

  /** All requests `post_media` sent, in order, and its per-platform result map. */
  datatype Published = Published(requests: seq<Request>, results: map<string, Json>)

  /** What `post_media` sends and returns. Each platform's entry is determined by that
      platform's own workflow alone, so a failure on one side never affects the other. */
  function PostMediaPlan(m: FacebookManager, caption: string, urls: seq<string>, mediaType: string,
                         platforms: seq<string>, fb: GraphReplies, ig: GraphReplies): (p: Published)
    ensures p.results.Keys <= {"facebook", "instagram"}
    ensures "facebook" in p.results <==> "facebook" in platforms
    ensures "instagram" in p.results <==> "instagram" in platforms
    ensures "facebook" in platforms ==>
      p.results["facebook"] == AsResult(FacebookPlan(m, caption, urls, mediaType, fb).outcome)
    ensures "instagram" in platforms ==>
      p.results["instagram"] == AsResult(InstagramAttempt(m, caption, urls, mediaType, ig).outcome)
    ensures p.requests ==
      (if "facebook" in platforms then FacebookPlan(m, caption, urls, mediaType, fb).requests else [])
      + (if "instagram" in platforms then InstagramAttempt(m, caption, urls, mediaType, ig).requests else [])
  {
    var fbAttempt := FacebookPlan(m, caption, urls, mediaType, fb);
    var igAttempt := InstagramAttempt(m, caption, urls, mediaType, ig);
    var afterFb := if "facebook" in platforms
      then Published(fbAttempt.requests, map["facebook" := AsResult(fbAttempt.outcome)])
      else Published([], map[]);
    if "instagram" in platforms
    then Published(afterFb.requests + igAttempt.requests, afterFb.results["instagram" := AsResult(igAttempt.outcome)])
    else afterFb
  }

  /** `post_media`: fill the result map platform by platform. */
  method PostMedia(m: FacebookManager, caption: string, urls: seq<string>, mediaType: string,
                   platforms: seq<string>, fb: GraphReplies, ig: GraphReplies)
    returns (requests: seq<Request>, results: map<string, Json>)
    ensures Published(requests, results) == PostMediaPlan(m, caption, urls, mediaType, platforms, fb, ig)
  {
    requests, results := [], map[];
    if "facebook" in platforms {
      var a := PostToFacebookComplex(m, caption, urls, mediaType, fb);
      requests := requests + a.requests;
      results := results["facebook" := AsResult(a.outcome)];
      assert requests == a.requests;
    }
    ghost var afterFb := Published(requests, results);
    ghost var igAttempt := InstagramAttempt(m, caption, urls, mediaType, ig);
    if "instagram" in platforms {
      if !IgConfigured(m) {
        results := results["instagram" := ErrorObject(IgNotConfiguredMessage)];
        assert requests == afterFb.requests + igAttempt.requests;
      } else {
        var a := PostToInstagram(m, caption, urls, mediaType, ig);
        assert a == igAttempt;
        requests := requests + a.requests;
        results := results["instagram" := AsResult(a.outcome)];
      }
    }
  }

  /** Instagram requested without an account id: its entry is exactly the configuration error,
      no Instagram request is made, and the Facebook side is unaffected. */
  lemma InstagramUnconfiguredIsolated(m: FacebookManager, caption: string, urls: seq<string>,
                                      mediaType: string, platforms: seq<string>,
                                      fb: GraphReplies, ig: GraphReplies)
    requires "instagram" in platforms && !IgConfigured(m)
    ensures var p := PostMediaPlan(m, caption, urls, mediaType, platforms, fb, ig);
      && p.results["instagram"] == Obj(map["error" := Str("INSTAGRAM_ACCOUNT_ID not configured.")])
      && p.requests == (if "facebook" in platforms then FacebookPlan(m, caption, urls, mediaType, fb).requests else [])
  {
    var p := PostMediaPlan(m, caption, urls, mediaType, platforms, fb, ig);
    assert InstagramAttempt(m, caption, urls, mediaType, ig).requests == [];
  }
}
