/** The LinkedIn adapter: organisation posts of four kinds (text, single image, carousel of
    images, link), the register-upload-post workflow for images, and post deletion. Every
    network reply is an input; each call becomes a `Request`. */
module LinkedIn {
  import opened Wrappers
  import opened Seqs
  import opened Http
  import opened Hashtags

  const ApiBaseUrl: string := "https://api.linkedin.com/v2"
  const OrganizationPrefix: string := "urn:li:organization:"

  /** The manager's state: the access token (sent in headers) and the organisation URN that
      authors every post and owns every upload. */
  datatype LinkedInManager = LinkedInManager(accessToken: string, organizationUrn: string)

  /** The organisation id a URN names, when it is an organisation URN. */
  function OrganizationIdOf(urn: string): Option<string> {
    if |OrganizationPrefix| <= |urn| && urn[..|OrganizationPrefix|] == OrganizationPrefix
    then Some(urn[|OrganizationPrefix|..])
    else None
  }

  /** `LinkedInManager.__init__`: the organisation URN is the prefixed id, and the id can be
      read back out of it. */
  function NewLinkedInManager(accessToken: string, organizationId: string): (m: LinkedInManager)
    ensures m.accessToken == accessToken
    ensures OrganizationIdOf(m.organizationUrn) == Some(organizationId)
  {
    var urn := OrganizationPrefix + organizationId;
    assert urn[..|OrganizationPrefix|] == OrganizationPrefix;
    assert urn[|OrganizationPrefix|..] == organizationId;
    LinkedInManager(accessToken, urn)
  }

  /** Distinct organisation ids give distinct authors. */
  lemma OrganizationUrnInjective(token: string, a: string, b: string)
    requires NewLinkedInManager(token, a).organizationUrn == NewLinkedInManager(token, b).organizationUrn
    ensures a == b
  {
    assert Some(a) == OrganizationIdOf(NewLinkedInManager(token, a).organizationUrn);
  }

  /** The kinds of post the manager makes. */
  datatype PostKind = TextPost | ImagePost | CarouselPost | LinkPost

  /** The `shareMediaCategory` each kind of post declares. */
  function MediaCategory(kind: PostKind): (category: string)
    ensures category in {"NONE", "IMAGE", "ARTICLE"}
    ensures category == "IMAGE" <==> kind in {ImagePost, CarouselPost}
  {
    match kind
    case TextPost => "NONE"
    case ImagePost => "IMAGE"
    case CarouselPost => "IMAGE"
    case LinkPost => "ARTICLE"
  }

  /** The body of a `ugcPosts` call: a published, public post by the organisation, with its
      commentary, its media category and, except for text posts, its media list. */
  function UgcPost(m: LinkedInManager, text: string, kind: PostKind, media: Option<seq<Json>>): Json {
    var share := map["shareCommentary" := Obj(map["text" := Str(text)]),
                     "shareMediaCategory" := Str(MediaCategory(kind))];
    var share := if media.Some? then share["media" := Arr(media.value)] else share;
    Obj(map["author" := Str(m.organizationUrn),
            "lifecycleState" := Str("PUBLISHED"),
            "specificContent" := Obj(map["com.linkedin.ugc.ShareContent" := Obj(share)]),
            "visibility" := Obj(map["com.linkedin.ugc.MemberNetworkVisibility" := Str("PUBLIC")])])
  }

  /** The share content of a post body, when it has one. */
  function ShareContentOf(post: Json): Option<map<string, Json>> {
    if post.Obj? && "specificContent" in post.fields && post.fields["specificContent"].Obj?
       && "com.linkedin.ugc.ShareContent" in post.fields["specificContent"].fields
       && post.fields["specificContent"].fields["com.linkedin.ugc.ShareContent"].Obj?
    then Some(post.fields["specificContent"].fields["com.linkedin.ugc.ShareContent"].fields)
    else None
  }

  function AuthorOf(post: Json): Option<string> {
    if post.Obj? && "author" in post.fields && post.fields["author"].Str?
    then Some(post.fields["author"].s) else None
  }

  function CommentaryOf(post: Json): Option<string> {
    match ShareContentOf(post)
    case None => None
    case Some(share) =>
      if "shareCommentary" in share && share["shareCommentary"].Obj?
         && "text" in share["shareCommentary"].fields && share["shareCommentary"].fields["text"].Str?
      then Some(share["shareCommentary"].fields["text"].s) else None
  }

  function CategoryOf(post: Json): Option<string> {
    match ShareContentOf(post)
    case None => None
    case Some(share) =>
      if "shareMediaCategory" in share && share["shareMediaCategory"].Str?
      then Some(share["shareMediaCategory"].s) else None
  }

  function MediaOf(post: Json): Option<seq<Json>> {
    match ShareContentOf(post)
    case None => None
    case Some(share) =>
      if "media" in share && share["media"].Arr? then Some(share["media"].items) else None
  }

  /** A post body carries exactly the author, commentary, category and media it was built
      from. */
  lemma UgcPostReadsBack(m: LinkedInManager, text: string, kind: PostKind, media: Option<seq<Json>>)
    ensures var post := UgcPost(m, text, kind, media);
      && AuthorOf(post) == Some(m.organizationUrn)
      && CommentaryOf(post) == Some(text)
      && CategoryOf(post) == Some(MediaCategory(kind))
      && MediaOf(post) == media
  {
  }

  function PostRequest(post: Json): Request {
    Request(Post, ApiBaseUrl + "/ugcPosts", Body(post))
  }

  /** The body of a post the exchange published, when its last call is a `ugcPosts` post. */
  function PublishedPost(e: Exchange): Option<Json> {
    if e.requests != [] && e.requests[|e.requests| - 1].verb == Post
       && e.requests[|e.requests| - 1].url == ApiBaseUrl + "/ugcPosts"
       && e.requests[|e.requests| - 1].payload.Body?
    then Some(e.requests[|e.requests| - 1].payload.json)
    else None
  }

  /** `create_text_post`: one post, by the organisation, of category NONE and without media,
      carrying the formatted text. */
  function CreateTextPost(m: LinkedInManager, text: string, hashtags: Option<seq<string>>, reply: Json): (e: Exchange)
    ensures |e.requests| == 1 && e.result == reply
    ensures var post := PublishedPost(e);
      && post.Some? && AuthorOf(post.value) == Some(m.organizationUrn)
      && CategoryOf(post.value) == Some("NONE") && MediaOf(post.value) == None
      && CommentaryOf(post.value) == Some(FormatTextWithHashtags(text, hashtags))
  {
    UgcPostReadsBack(m, FormatTextWithHashtags(text, hashtags), TextPost, None);
    Exchange([PostRequest(UgcPost(m, FormatTextWithHashtags(text, hashtags), TextPost, None))], reply)
  }

  /** The single media entry of a link post. */
  function ArticleEntry(linkUrl: string): Json {
    Obj(map["status" := Str("READY"), "originalUrl" := Str(linkUrl)])
  }

  /** `create_link_post`: one post, by the organisation, of category ARTICLE whose only media
      entry is the link, carrying the formatted text. */
  function CreateLinkPost(m: LinkedInManager, text: string, linkUrl: string, hashtags: Option<seq<string>>,
                          reply: Json): (e: Exchange)
    ensures |e.requests| == 1 && e.result == reply
    ensures var post := PublishedPost(e);
      && post.Some? && AuthorOf(post.value) == Some(m.organizationUrn)
      && CategoryOf(post.value) == Some("ARTICLE") && MediaOf(post.value) == Some([ArticleEntry(linkUrl)])
      && CommentaryOf(post.value) == Some(FormatTextWithHashtags(text, hashtags))
  {
    UgcPostReadsBack(m, FormatTextWithHashtags(text, hashtags), LinkPost, Some([ArticleEntry(linkUrl)]));
    Exchange([PostRequest(UgcPost(m, FormatTextWithHashtags(text, hashtags), LinkPost,
                                  Some([ArticleEntry(linkUrl)])))], reply)
  }

  // Image uploads

  /** What the register call answers: the asset and its upload URL when the answer has a
      `value`, otherwise the whole answer. */
  datatype Registration = Registered(asset: string, uploadUrl: string) | Unregistered(details: Json)

  function RegisterPayload(m: LinkedInManager): Json {
    Obj(map["registerUploadRequest" := Obj(map[
      "recipes" := Arr([Str("urn:li:digitalmediaRecipe:feedshare-image")]),
      "owner" := Str(m.organizationUrn),
      "serviceRelationships" := Arr([Obj(map["relationshipType" := Str("OWNER"),
                                             "identifier" := Str("urn:li:userGeneratedContent")])])])])
  }

  function RegisterRequest(m: LinkedInManager): Request {
    Request(Post, ApiBaseUrl + "/assets?action=registerUpload", Body(RegisterPayload(m)))
  }

  /** The calls one image costs: the registration, then, when it succeeded, fetching the image
      and putting its bytes to the upload URL. */
  function ImageSteps(m: LinkedInManager, imageUrl: string, reg: Registration): (steps: seq<Request>)
    ensures |steps| == (if reg.Registered? then 3 else 1) && steps[0] == RegisterRequest(m)
    ensures reg.Registered? ==>
      steps[1] == Request(Get, imageUrl, NoPayload) && steps[2] == Request(Put, reg.uploadUrl, Bytes(imageUrl))
  {
    [RegisterRequest(m)]
      + if reg.Registered?
        then [Request(Get, imageUrl, NoPayload), Request(Put, reg.uploadUrl, Bytes(imageUrl))]
        else []
  }

  /** The media entry of an uploaded image. */
  function MediaEntry(asset: string): Json {
    Obj(map["status" := Str("READY"), "media" := Str(asset)])
  }

  const RegisterFailedMessage: string := "Failed to register upload"

  /** `create_image_post`: register, upload, post an IMAGE post with the one asset; when the
      registration has no `value`, stop after it with an error object holding the answer. */
  function CreateImagePost(m: LinkedInManager, text: string, imageUrl: string, hashtags: Option<seq<string>>,
                           reg: Registration, reply: Json): (e: Exchange)
    ensures e.requests != [] && e.requests[0] == RegisterRequest(m)
    ensures PublishedPost(e).Some? <==> reg.Registered?
    ensures reg.Registered? ==> e.result == reply
    ensures reg.Registered? ==>
      var post := PublishedPost(e).value;
      && AuthorOf(post) == Some(m.organizationUrn)
      && CategoryOf(post) == Some("IMAGE") && MediaOf(post) == Some([MediaEntry(reg.asset)])
      && CommentaryOf(post) == Some(FormatTextWithHashtags(text, hashtags))
  {
    match reg
    case Unregistered(details) =>
      Exchange(ImageSteps(m, imageUrl, reg),
               Obj(map["error" := Str(RegisterFailedMessage), "details" := details]))
    case Registered(asset, _) =>
      UgcPostReadsBack(m, FormatTextWithHashtags(text, hashtags), ImagePost, Some([MediaEntry(asset)]));
      Exchange(ImageSteps(m, imageUrl, reg)
                 + [PostRequest(UgcPost(m, FormatTextWithHashtags(text, hashtags), ImagePost,
                                        Some([MediaEntry(asset)])))], reply)
  }

  /** A failed registration ends the image workflow: the register call is the only request,
      nothing is uploaded or posted, and the answer is handed back under "details". */
  lemma ImagePostStopsWhenUnregistered(m: LinkedInManager, text: string, imageUrl: string,
                                       hashtags: Option<seq<string>>, details: Json, reply: Json)
    ensures var e := CreateImagePost(m, text, imageUrl, hashtags, Unregistered(details), reply);
      && e.requests == [RegisterRequest(m)]
      && PublishedPost(e) == None
      && e.result == Obj(map["error" := Str("Failed to register upload"), "details" := details])
  {
  }

  /** A successful registration leads to exactly register, fetch, upload and post, in that
      order, with the upload sent to the URL the registration gave. */
  lemma ImagePostOrder(m: LinkedInManager, text: string, imageUrl: string, hashtags: Option<seq<string>>,
                       asset: string, uploadUrl: string, reply: Json)
    ensures var e := CreateImagePost(m, text, imageUrl, hashtags, Registered(asset, uploadUrl), reply);
      && |e.requests| == 4
      && e.requests[0] == RegisterRequest(m)
      && e.requests[1] == Request(Get, imageUrl, NoPayload)
      && e.requests[2] == Request(Put, uploadUrl, Bytes(imageUrl))
      && PublishedPost(e).Some?
      && MediaOf(PublishedPost(e).value) == Some([MediaEntry(asset)])
      && e.result == reply
  {
    UgcPostReadsBack(m, FormatTextWithHashtags(text, hashtags), ImagePost, Some([MediaEntry(asset)]));
  }

  // Carousel

  /** The registration answer for the i-th image; a call past the end of the given answers is
      treated as a failed one. */
  function RegistrationAt(regs: seq<Registration>, i: nat): Registration {
    if i < |regs| then regs[i] else Unregistered(Null)
  }

  function Registrations(regs: seq<Registration>, n: nat): (rs: seq<Registration>)
    ensures |rs| == n
  {
    seq(n, i requires 0 <= i < n => RegistrationAt(regs, i))
  }

  predicate IsRegistered(reg: Registration) {
    reg.Registered?
  }

  /** The calls the carousel loop makes for its first `n` images. */
  function CarouselUploads(m: LinkedInManager, urls: seq<string>, regs: seq<Registration>, n: nat): seq<Request>
    requires n <= |urls|
  {
    if n == 0 then []
    else CarouselUploads(m, urls, regs, n - 1) + ImageSteps(m, urls[n - 1], RegistrationAt(regs, n - 1))
  }

  /** The media entries of the registered images, in input order. */
  function CarouselMedia(rs: seq<Registration>): (media: seq<Json>)
    ensures |media| <= |rs|
  {
    var ok := Filter(rs, IsRegistered);
    seq(|ok|, j requires 0 <= j < |ok| => assert ok[j] in ok; MediaEntry(ok[j].asset))
  }

  lemma CarouselMediaSnoc(rs: seq<Registration>, reg: Registration)
    ensures CarouselMedia(rs + [reg]) ==
      CarouselMedia(rs) + if reg.Registered? then [MediaEntry(reg.asset)] else []
  {
    FilterSnoc(rs, reg, IsRegistered);
  }

  /** One more image adds its entry to the media list exactly when it registered. */
  lemma CarouselMediaStep(regs: seq<Registration>, i: nat)
    ensures var reg := RegistrationAt(regs, i);
      CarouselMedia(Registrations(regs, i + 1)) ==
        CarouselMedia(Registrations(regs, i)) + if reg.Registered? then [MediaEntry(reg.asset)] else []
  {
    assert Registrations(regs, i + 1) == Registrations(regs, i) + [RegistrationAt(regs, i)];
    CarouselMediaSnoc(Registrations(regs, i), RegistrationAt(regs, i));
  }

  /** `create_carousel_post` with every reply given: the per-image calls, then one IMAGE post
      whose media list holds the registered images' entries. */
  function CarouselPlan(m: LinkedInManager, text: string, urls: seq<string>, hashtags: Option<seq<string>>,
                        regs: seq<Registration>, reply: Json): Exchange {
    Exchange(CarouselUploads(m, urls, regs, |urls|)
               + [PostRequest(UgcPost(m, FormatTextWithHashtags(text, hashtags), CarouselPost,
                                      Some(CarouselMedia(Registrations(regs, |urls|)))))], reply)
  }

  /** The loop of `create_carousel_post`: register and upload each image in turn, skipping
      (`continue`) those whose registration failed, and collect the media entries. */
  method UploadCarouselImages(m: LinkedInManager, urls: seq<string>, regs: seq<Registration>)
    returns (requests: seq<Request>, mediaList: seq<Json>)
    ensures requests == CarouselUploads(m, urls, regs, |urls|)
    ensures mediaList == CarouselMedia(Registrations(regs, |urls|))
  {
    requests, mediaList := [], [];
    for i := 0 to |urls|
      invariant requests == CarouselUploads(m, urls, regs, i)
      invariant mediaList == CarouselMedia(Registrations(regs, i))
    {
      var reg := RegistrationAt(regs, i);
      CarouselMediaStep(regs, i);
      ghost var before := requests;
      requests := requests + [RegisterRequest(m)];
      if !reg.Registered? {
        assert requests == before + ImageSteps(m, urls[i], reg);
        continue;
      }
      requests := requests + [Request(Get, urls[i], NoPayload), Request(Put, reg.uploadUrl, Bytes(urls[i]))];
      assert requests == before + ImageSteps(m, urls[i], reg);
      mediaList := mediaList + [MediaEntry(reg.asset)];
    }
  }

  /** `create_carousel_post`: the uploads, then the post, made even when no image registered. */
  method CreateCarouselPost(m: LinkedInManager, text: string, urls: seq<string>, hashtags: Option<seq<string>>,
                            regs: seq<Registration>, reply: Json) returns (e: Exchange)
    ensures e == CarouselPlan(m, text, urls, hashtags, regs, reply)
  {
    var formatted := FormatTextWithHashtags(text, hashtags);
    var requests, mediaList := UploadCarouselImages(m, urls, regs);
    e := Exchange(requests + [PostRequest(UgcPost(m, formatted, CarouselPost, Some(mediaList)))], reply);
  }

  /** The carousel's media list holds one entry per successfully registered image, carrying that
      image's asset, in input order; failed images leave no entry. */
  lemma CarouselMediaInOrder(m: LinkedInManager, text: string, urls: seq<string>, hashtags: Option<seq<string>>,
                             regs: seq<Registration>, reply: Json) returns (pos: seq<nat>)
    ensures var e := CarouselPlan(m, text, urls, hashtags, regs, reply);
      var rs := Registrations(regs, |urls|);
      && PublishedPost(e).Some?
      && MediaOf(PublishedPost(e).value).Some?
      && var media := MediaOf(PublishedPost(e).value).value;
      && |pos| == |media|
      && (forall j :: 0 <= j < |pos| ==>
            pos[j] < |urls| && rs[pos[j]].Registered? && media[j] == MediaEntry(rs[pos[j]].asset))
      && (forall j, k :: 0 <= j < k < |pos| ==> pos[j] < pos[k])
      && (forall i :: 0 <= i < |urls| ==> (rs[i].Registered? <==> i in pos))
  {
    var rs := Registrations(regs, |urls|);
    var media := CarouselMedia(rs);
    UgcPostReadsBack(m, FormatTextWithHashtags(text, hashtags), CarouselPost, Some(media));
    pos := FilterPositions(rs, IsRegistered);
  }

  /** The carousel post is made even when every registration failed: then it is an IMAGE post
      with an empty media list, made after one register call per image. */
  lemma CarouselPostsEvenIfAllFail(m: LinkedInManager, text: string, urls: seq<string>,
                                   hashtags: Option<seq<string>>, regs: seq<Registration>, reply: Json)
    requires forall i :: 0 <= i < |urls| ==> !RegistrationAt(regs, i).Registered?
    ensures var e := CarouselPlan(m, text, urls, hashtags, regs, reply);
      && |e.requests| == |urls| + 1
      && (forall i :: 0 <= i < |urls| ==> e.requests[i] == RegisterRequest(m))
      && PublishedPost(e).Some?
      && CategoryOf(PublishedPost(e).value) == Some("IMAGE")
      && MediaOf(PublishedPost(e).value) == Some([])
  {
    var rs := Registrations(regs, |urls|);
    FailedUploadsOnlyRegister(m, urls, regs, |urls|);
    FilterNone(rs, IsRegistered);
    UgcPostReadsBack(m, FormatTextWithHashtags(text, hashtags), CarouselPost, Some(CarouselMedia(rs)));
  }

  lemma {:induction false} FailedUploadsOnlyRegister(m: LinkedInManager, urls: seq<string>,
                                                     regs: seq<Registration>, n: nat)
    requires n <= |urls|
    requires forall i :: 0 <= i < n ==> !RegistrationAt(regs, i).Registered?
    ensures CarouselUploads(m, urls, regs, n) == seq(n, i => RegisterRequest(m))
  {
    if n > 0 {
      FailedUploadsOnlyRegister(m, urls, regs, n - 1);
    }
  }

  /** A single-image post that registers is the one-image carousel: same calls in the same
      order, same post apart from the media category, which is IMAGE for both. */
  lemma SingleImageIsOneImageCarousel(m: LinkedInManager, text: string, url: string,
                                      hashtags: Option<seq<string>>, reg: Registration, reply: Json)
    requires reg.Registered?
    ensures var single := CreateImagePost(m, text, url, hashtags, reg, reply);
      var carousel := CarouselPlan(m, text, [url], hashtags, [reg], reply);
      && single.requests[..|single.requests| - 1] == carousel.requests[..|carousel.requests| - 1]
      && PublishedPost(single).Some? && PublishedPost(carousel).Some?
      && MediaOf(PublishedPost(single).value) == MediaOf(PublishedPost(carousel).value)
      && CategoryOf(PublishedPost(single).value) == CategoryOf(PublishedPost(carousel).value) == Some("IMAGE")
      && CommentaryOf(PublishedPost(single).value) == CommentaryOf(PublishedPost(carousel).value)
  {
    var formatted := FormatTextWithHashtags(text, hashtags);
    var entry := [MediaEntry(reg.asset)];
    OneImageCarousel(m, url, reg);
    var single := CreateImagePost(m, text, url, hashtags, reg, reply);
    var carousel := CarouselPlan(m, text, [url], hashtags, [reg], reply);
    assert single.requests == ImageSteps(m, url, reg) + [PostRequest(UgcPost(m, formatted, ImagePost, Some(entry)))];
    assert carousel.requests == ImageSteps(m, url, reg) + [PostRequest(UgcPost(m, formatted, CarouselPost, Some(entry)))];
    assert single.requests[..|single.requests| - 1] == ImageSteps(m, url, reg);
    assert carousel.requests[..|carousel.requests| - 1] == ImageSteps(m, url, reg);
    UgcPostReadsBack(m, formatted, ImagePost, Some(entry));
    UgcPostReadsBack(m, formatted, CarouselPost, Some(entry));
  }

  /** A one-image carousel makes the single image's calls and collects its one entry. */
  lemma OneImageCarousel(m: LinkedInManager, url: string, reg: Registration)
    requires reg.Registered?
    ensures CarouselUploads(m, [url], [reg], 1) == ImageSteps(m, url, reg)
    ensures CarouselMedia(Registrations([reg], 1)) == [MediaEntry(reg.asset)]
  {
    var rs := Registrations([reg], 1);
    assert rs == [] + [reg];
    CarouselMediaSnoc([], reg);
  }

  lemma CarouselPostCategory(m: LinkedInManager, text: string, urls: seq<string>, hashtags: Option<seq<string>>,
                             regs: seq<Registration>, reply: Json)
    ensures var post := PublishedPost(CarouselPlan(m, text, urls, hashtags, regs, reply));
      && post.Some? && CategoryOf(post.value) == Some("IMAGE")
      && CommentaryOf(post.value) == Some(FormatTextWithHashtags(text, hashtags))
  {
    UgcPostReadsBack(m, FormatTextWithHashtags(text, hashtags), CarouselPost,
                     Some(CarouselMedia(Registrations(regs, |urls|))));
  }

  /** Every kind of post declares its own category and carries the formatted text:
      NONE for text, IMAGE for image and carousel, ARTICLE for link posts. */
  lemma ShareMediaCategoryByKind(m: LinkedInManager, text: string, url: string, urls: seq<string>,
                                 hashtags: Option<seq<string>>, asset: string, uploadUrl: string,
                                 regs: seq<Registration>, reply: Json)
    ensures var formatted := FormatTextWithHashtags(text, hashtags);
      var textPost := PublishedPost(CreateTextPost(m, text, hashtags, reply));
      var imagePost := PublishedPost(CreateImagePost(m, text, url, hashtags, Registered(asset, uploadUrl), reply));
      var carouselPost := PublishedPost(CarouselPlan(m, text, urls, hashtags, regs, reply));
      var linkPost := PublishedPost(CreateLinkPost(m, text, url, hashtags, reply));
      && textPost.Some? && CategoryOf(textPost.value) == Some("NONE")
      && CommentaryOf(textPost.value) == Some(formatted) && MediaOf(textPost.value) == None
      && imagePost.Some? && CategoryOf(imagePost.value) == Some("IMAGE")
      && CommentaryOf(imagePost.value) == Some(formatted)
      && carouselPost.Some? && CategoryOf(carouselPost.value) == Some("IMAGE")
      && CommentaryOf(carouselPost.value) == Some(formatted)
      && linkPost.Some? && CategoryOf(linkPost.value) == Some("ARTICLE")
      && CommentaryOf(linkPost.value) == Some(formatted)
      && MediaOf(linkPost.value) == Some([ArticleEntry(url)])
  {
    CarouselPostCategory(m, text, urls, hashtags, regs, reply);
  }

  // Deletion

  /** What the delete call answers: its body text, its status code and the decoded body. */
  datatype DeleteReply = DeleteReply(text: string, statusCode: int, body: Json)

  /** `delete_post`: one DELETE of the post; the decoded body when the answer has one, else
      the status code alone. */
  function DeletePost(m: LinkedInManager, postUrn: string, reply: DeleteReply): (e: Exchange)
    ensures e.requests == [Request(Delete, ApiBaseUrl + "/ugcPosts/" + postUrn, NoPayload)]
    ensures reply.text == "" ==> e.result == Obj(map["status" := Num(reply.statusCode)])
    ensures reply.text != "" ==> e.result == reply.body
  {
    Exchange([Request(Delete, ApiBaseUrl + "/ugcPosts/" + postUrn, NoPayload)],
             if reply.text != "" then reply.body else Obj(map["status" := Num(reply.statusCode)]))
  }
}
