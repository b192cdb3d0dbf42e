# Social media MCP adapters — verified model

This project models the decision-making core of three MCP servers that publish to social
networks on behalf of one account each:

- **Facebook / Instagram** (`FacebookManager` and the server's `handle_call_tool`):
  - filtering negative comments by keyword;
  - `post_media` fanning a post out to Facebook and Instagram, and keeping each platform's
    failure to itself;
  - the Facebook branches: feed post, single photo, album of unpublished photos, and video;
  - the Instagram container workflow: single image or video container, or carousel children
    plus a parent, then publish;
  - the tool dispatcher, which turns every exception into an `Error: …` text.
- **LinkedIn** (`LinkedInManager`):
  - the organisation URN;
  - the four kinds of UGC post and their `shareMediaCategory`;
  - the register → fetch → upload → post image workflow and its early exit;
  - the carousel loop that skips failed registrations;
  - the result of `delete_post`.
- **Telegram** (`TelegramManager`):
  - text messages;
  - photos, whose caption key is dropped when empty;
  - media groups: 2 to 10 photos, with the caption on the first only;
  - messages with a link preview.
- **Hashtag formatter:** `_format_text_with_hashtags` is shared by LinkedIn and Telegram.
  The two copies are identical, so it is defined once, in `Hashtags`.

Network calls are not executed. Each call is a `Http.Request` record: verb, URL, and query
parameters, JSON body or uploaded bytes. What the remote API answers is an input of the
operation:

- `Facebook.GraphReplies`: the id each per-item call returns, the container id, and the last
  decoded body.
- `LinkedIn.Registration`: the answer to a register call.
- `Json` replies: the answers of single-call operations.

An operation's model is therefore the ordered list of requests it sends plus what it returns.

Where the source loops or fills a dictionary step by step, the model is a method with the same
loop. Each such method is proved equal to a specification function, and the properties are
lemmas about that function:

| method | proved equal to |
|---|---|
| `FilterNegativeComments` | `NegativeComments` |
| `UploadUnpublishedPhotos` | `UnpublishedUploads` / `AttachedMedia` |
| `CreateIgContainer` | `IgContainerParams` |
| `CreateCarouselChildren` | `ChildContainerRequests` / `ReturnedIds` |
| `PostMedia` | `PostMediaPlan` |
| `UploadCarouselImages` | `CarouselUploads` / `CarouselMedia` |
| `SendPhoto` | `PhotoPayload` |
| `SendMediaGroup` | `MediaGroupPlan` |

Python details the model keeps:

- Truthiness: `""`, `None` and `[]` are false (`Wrappers.IsTruthy`, `Wrappers.HasItems`).
- Exceptions become `Facebook.Outcome.Raised` carrying `str(e)`.
- A missing dictionary key in the dispatcher prints as the quoted key, as `str(KeyError)` does.
- Subscripting `None` arguments gives `'NoneType' object is not subscriptable`.

Files:

| file | contents |
|---|---|
| `wrappers.dfy` | `Option`, truthiness |
| `http.dfy` | JSON values and request records |
| `text.dfy` | ASCII `lower()`, substring search, `join`, `split` |
| `seqs.dfy` | an order-keeping filter and its lemmas |
| `hashtags.dfy` | the hashtag formatter |
| `facebook.dfy` | the Facebook / Instagram manager |
| `facebook_tools.dfy` | the Facebook dispatcher |
| `linkedin.dfy` | the LinkedIn manager |
| `telegram.dfy` | the Telegram manager |

## Model

| member | source | states |
|---|---|---|
| Facebook.FilterNegativeComments | src/facebook_mcp_server/server.py:104-115 | the nested keyword loop with `break` returns exactly the order-keeping filter `NegativeComments`; a response without `data` gives `[]` |
| Facebook.MatchesNegativeKeyword | src/facebook_mcp_server/server.py:111-114 | the inner keyword loop, left at the first hit, answers true iff one of the seven keywords occurs in the text |
| Facebook.NegativeCommentsMatchKeywords | src/facebook_mcp_server/server.py:106-113 | a comment is returned iff it is in `data`, has a `message`, and one of the seven keywords occurs in its lower-cased message |
| Facebook.NegativeCommentsInOrder | src/facebook_mcp_server/server.py:107-115 | the output is `data` read at strictly increasing positions, exactly the negative ones: a subsequence in input order |
| Facebook.NegativeCommentsCount | src/facebook_mcp_server/server.py:107-115 | a negative comment occurs in the output as often as in the input, so the `break` means no comment is added twice; others occur zero times |
| Facebook.MessagelessContributesNothing | src/facebook_mcp_server/server.py:108-110 | no `data` key gives `[]`; inserting a comment without `message` anywhere leaves the output unchanged |
| Facebook.ReturnedIdsInOrder | src/facebook_mcp_server/server.py:182-186 | the ids kept under `if photo_id:` are the non-empty returned ids at strictly increasing positions, each position with a truthy id taken once |
| Facebook.RouteFacebook | src/facebook_mcp_server/server.py:165-212 | the text-post branch is taken iff there are no URLs; single photo needs one URL, album more than one |
| Facebook.UploadUnpublishedPhotos | src/facebook_mcp_server/server.py:182-186 | the album loop uploads every URL unpublished, in order, and attaches `{"media_fbid": id}` for exactly the truthy returned ids, in order |
| Facebook.PostToFacebookComplex | src/facebook_mcp_server/server.py:165-212 | the method (recursing once for `carousel`) sends exactly the requests and ends exactly as `FacebookPlan` |
| Facebook.FacebookWithoutUrlsPostsText | src/facebook_mcp_server/server.py:166-167 | empty `media_urls` gives one feed post of the caption, for any media type |
| Facebook.FacebookSinglePhoto | src/facebook_mcp_server/server.py:169-178 | one URL with `image` or `carousel`: a single published photo of that URL with the caption, and nothing else |
| Facebook.FacebookReelIsVideo | src/facebook_mcp_server/server.py:197-205 | `reel` is posted exactly as `video`: one video upload of the first URL, whatever else the list holds, with the caption as description |
| Facebook.FacebookCarouselIsImage | src/facebook_mcp_server/server.py:207-209 | `carousel` behaves exactly like `image` on Facebook |
| Facebook.FacebookAlbumShape | src/facebook_mcp_server/server.py:179-195 | several images: one unpublished upload per URL in order, then one feed post whose `attached_media` lists the truthy returned ids in input order |
| Facebook.FacebookUnsupportedRaises | src/facebook_mcp_server/server.py:211-212 | with URLs, any other media type raises `ValueError("Unsupported media_type for Facebook: …")` before any request |
| Facebook.IgContainerParams | src/facebook_mcp_server/server.py:259-275 | `media_type` is REELS iff video and reel, VIDEO iff video and not reel; `video_url` iff video, `image_url` otherwise; `caption` iff truthy caption and not a carousel item; `is_carousel_item` iff carousel item |
| Facebook.CreateIgContainer | src/facebook_mcp_server/server.py:259-280 | the step-by-step dictionary fill sends exactly the request with `IgContainerParams` to the account's `media` edge |
| Facebook.CreateCarouselChildren | src/facebook_mcp_server/server.py:241-246 | one child container per URL, in order; the child ids kept are exactly the truthy returned ids, in order |
| Facebook.PostToInstagram | src/facebook_mcp_server/server.py:224-257 | the method sends exactly the requests and ends exactly as `InstagramPlan` |
| Facebook.InstagramPublishesOnlyWithContainer | src/facebook_mcp_server/server.py:224-257 | the workflow returns iff a publish request is sent, and then the last request publishes `creation_id` = the truthy container id the last creation call returned; when it raises, nothing is published, and a raise after any request is the `RuntimeError` "Failed to create Instagram media container." |
| Facebook.PublishOrFailPublishesOnlyOnSuccess | src/facebook_mcp_server/server.py:254-257 | after container calls that do not publish, the closing step publishes iff it returns: it then appends exactly the publish request for the truthy container id and returns the publish reply; otherwise it raises the `RuntimeError` text and sends nothing more |
| Facebook.InstagramCarouselShape | src/facebook_mcp_server/server.py:239-249 | carousel or several images: each URL gets a caption-less child flagged `is_carousel_item`; no kept id means no parent and `RuntimeError`; otherwise the parent lists the kept ids |
| Facebook.CarouselChildrenListKeptIds | src/facebook_mcp_server/server.py:282-291 | the parent's `children` field, split at commas, gives back exactly the kept child ids in order (ids without commas) |
| Facebook.InstagramSingleContainer | src/facebook_mcp_server/server.py:231-237 | one image URL, or a video/reel with any number of URLs: the container uses only the first URL, `media_type` present iff not an image (REELS for reel, VIDEO for video), `caption` iff non-empty, and success iff a truthy container id came back |
| Facebook.InstagramWithoutUrls | src/facebook_mcp_server/server.py:231-252 | `image` with no URLs raises the unsupported-type `ValueError`; `video`/`reel` with no URLs raise `IndexError`; neither sends anything |
| Facebook.InstagramAttempt | src/facebook_mcp_server/server.py:154-161 | without an account id the Instagram entry is the configuration error and no request is made |
| Facebook.PostMediaPlan | src/facebook_mcp_server/server.py:137-163 | the result has key `facebook` iff requested and key `instagram` iff requested; each entry depends only on its own platform's workflow, failures becoming `{"error": msg}`; requests are Facebook's then Instagram's |
| Facebook.PostMedia | src/facebook_mcp_server/server.py:137-163 | filling the result map platform by platform gives exactly `PostMediaPlan` |
| Facebook.InstagramUnconfiguredIsolated | src/facebook_mcp_server/server.py:154-156 | Instagram requested without account id: its entry is exactly `{"error": "INSTAGRAM_ACCOUNT_ID not configured."}` and only Facebook's requests are sent |
| FacebookTools.FirstMissing | src/facebook_mcp_server/server.py:427-455 | reading the arguments raises nothing iff every key the branch reads is present |
| FacebookTools.HandleCallTool | src/facebook_mcp_server/server.py:424-461 | every error result starts with `Error: ` and sends nothing; an unknown name gives `Error: Unknown tool: <name>`; a known tool errs iff one of its arguments cannot be read |
| FacebookTools.MissingArgumentNamed | src/facebook_mcp_server/server.py:427-455 | the first missing argument, in the branch's reading order, is named in the `KeyError` text and nothing is sent |
| FacebookTools.FirstMissingIsFirst | src/facebook_mcp_server/server.py:430-439 | the lookup fails at the first absent key, in the order the branch reads them |
| FacebookTools.FilterToolFetchesThenFilters | src/facebook_mcp_server/server.py:447-450 | `filter_negative_comments` fetches the post's comments once and returns the negative ones |
| FacebookTools.NoArgumentsFailsOnFirstRead | src/facebook_mcp_server/server.py:424-461 | `None` arguments fail with the `NoneType` subscript error for every tool that reads an argument; `get_page_posts` still runs |
| FacebookTools.AllNamesRoute | src/facebook_mcp_server/server.py:427-456 | each of the eight listed names reaches its own tool's branch: no earlier test in the chain catches a later tool's name |
| Text.ContainsIffOccurs | src/facebook_mcp_server/server.py:112 | the substring test `keyword in message` holds iff the keyword occurs at some position |
| Text.SplitJoin | src/facebook_mcp_server/server.py:286 | joining comma-free ids with `,` and splitting again gives the ids back |
| Hashtags.StripLeadingHashes | src/linkedin_mcp_server/__init__.py:76 | `lstrip('#')` removes exactly a leading run of `#` and leaves a suffix that does not start with `#` |
| Hashtags.NormalizeTag | src/linkedin_mcp_server/__init__.py:76 | each tag becomes one `#` followed by what remains after removing exactly its leading run of `#` |
| Hashtags.FormatTextWithHashtags | src/linkedin_mcp_server/__init__.py:71-77 | the text is always a prefix; the result is longer iff a non-empty tag list is given, and then the text is followed by `\n\n`; Telegram's copy at `src/telegram_mcp_server/__init__.py` lines 60-66 is the same function |
| Hashtags.NormalizeIgnoresLeadingHash | src/linkedin_mcp_server/__init__.py:76 | a tag given with or without leading `#` normalises the same; normalising is idempotent |
| Hashtags.TagLineSplitsIntoTags | src/linkedin_mcp_server/__init__.py:76-77 | for space-free tags the appended line splits into the normalised tags, in input order, each with exactly one leading `#` |
| Hashtags.FormatWithTags | src/telegram_mcp_server/__init__.py:62-66 | with tags the result is text, `\n\n` and the tag line, and it is never empty |
| LinkedIn.NewLinkedInManager | src/linkedin_mcp_server/__init__.py:59-61 | the organisation URN is `urn:li:organization:` + id, and the id reads back out of it |
| LinkedIn.OrganizationUrnInjective | src/linkedin_mcp_server/__init__.py:61 | different organisation ids give different authors |
| LinkedIn.MediaCategory | src/linkedin_mcp_server/__init__.py:88-91 | the category is one of NONE, IMAGE, ARTICLE, and IMAGE exactly for image and carousel posts |
| LinkedIn.UgcPostReadsBack | src/linkedin_mcp_server/__init__.py:84-94 | a built post body carries exactly the author, commentary, category and media it was built from |
| LinkedIn.CreateTextPost | src/linkedin_mcp_server/__init__.py:79-96 | one post, read back: authored by the organisation, category NONE, no media, the formatted text; the reply is returned |
| LinkedIn.CreateLinkPost | src/linkedin_mcp_server/__init__.py:209-232 | one post, read back: authored by the organisation, category ARTICLE, the link as the only media entry, the formatted text |
| LinkedIn.ImageSteps | src/linkedin_mcp_server/__init__.py:102-128 | an image costs the register call, then, exactly when registration succeeded, a GET of the image URL and a PUT of its bytes to the upload URL that registration returned |
| LinkedIn.CreateImagePost | src/linkedin_mcp_server/__init__.py:98-150 | registration comes first; a post is published iff registration returned `value`, and then it reads back as an IMAGE post by the organisation with the one registered asset and the formatted text (order in `LinkedIn.ImagePostOrder`, failure in `LinkedIn.ImagePostStopsWhenUnregistered`) |
| LinkedIn.ImagePostStopsWhenUnregistered | src/linkedin_mcp_server/__init__.py:116-120 | without `value` only the register call is made, nothing is posted, and the result is `{"error": "Failed to register upload", "details": answer}` |
| LinkedIn.ImagePostOrder | src/linkedin_mcp_server/__init__.py:98-150 | after a successful registration: register, fetch the image, PUT it to the returned upload URL, then post with the one asset |
| LinkedIn.UploadCarouselImages | src/linkedin_mcp_server/__init__.py:156-190 | the loop with `continue` sends exactly `CarouselUploads` and collects exactly `CarouselMedia` |
| LinkedIn.CreateCarouselPost | src/linkedin_mcp_server/__init__.py:152-207 | the method sends exactly the requests of `CarouselPlan` |
| LinkedIn.CarouselMediaInOrder | src/linkedin_mcp_server/__init__.py:156-201 | the media list has one `READY` entry per registered image, carrying its asset, at strictly increasing input positions, exactly the registered ones |
| LinkedIn.CarouselPostsEvenIfAllFail | src/linkedin_mcp_server/__init__.py:176-206 | when every registration fails, only register calls precede the post, which is still made, with category IMAGE and an empty media list |
| LinkedIn.FailedUploadsOnlyRegister | src/linkedin_mcp_server/__init__.py:173-177 | failed registrations cost one register call each and nothing more |
| LinkedIn.SingleImageIsOneImageCarousel | src/linkedin_mcp_server/__init__.py:98-207 | a registered single-image post and a one-image carousel send the same calls and post the same commentary, category and media |
| LinkedIn.ShareMediaCategoryByKind | src/linkedin_mcp_server/__init__.py:79-232 | text posts are NONE without media, image and carousel posts IMAGE, link posts ARTICLE with the link as only entry; every kind carries the formatted text |
| LinkedIn.DeletePost | src/linkedin_mcp_server/__init__.py:262-268 | one DELETE of the post; an empty body gives `{"status": status_code}`, otherwise the decoded body |
| Telegram.SendMessageText | src/telegram_mcp_server/__init__.py:68-79 | one `sendMessage` call whose text is the input, followed by a blank line and the tag line when tags are given |
| Telegram.SendMessage | src/telegram_mcp_server/__init__.py:68-79 | one `sendMessage` call to the bot's URL whose text starts with the given text and is longer exactly when tags are given; the reply is returned as is (closed form in `Telegram.SendMessageText`) |
| Telegram.PhotoCaption | src/telegram_mcp_server/__init__.py:83-86 | the computed caption is truthy iff the caption or the tags are; with tags only it is `\n\n` + tag line |
| Telegram.PhotoPayload | src/telegram_mcp_server/__init__.py:88-91 | the payload's keys are `chat_id`, `photo`, plus `caption` exactly when the caption or the tags are truthy; an empty caption never appears |
| Telegram.SendPhoto | src/telegram_mcp_server/__init__.py:81-93 | building the payload step by step sends exactly `PhotoPayload` to `sendPhoto` |
| Telegram.GroupCaption | src/telegram_mcp_server/__init__.py:104-106 | a caption is computed iff the caption or the tags are truthy; it is then the formatter applied to `caption or ""` and the tags, and non-empty |
| Telegram.MediaItem | src/telegram_mcp_server/__init__.py:111-117 | an item is a photo of its URL, with a `caption` key iff a non-empty caption is given |
| Telegram.MediaGroupPlan | src/telegram_mcp_server/__init__.py:95-126 | nothing is sent iff the URLs are missing, fewer than 2 or more than 10; the matching error object is returned then |
| Telegram.SendMediaGroup | src/telegram_mcp_server/__init__.py:95-126 | the checks and the enumerate loop give exactly `MediaGroupPlan` |
| Telegram.MediaGroupShape | src/telegram_mcp_server/__init__.py:104-118 | for 2–10 URLs: one item per URL, in order, each a photo of its URL; no item after the first has a caption; the first has one iff the caption or the tags are truthy, and it is the formatted `caption or ""` with the tags |
| Telegram.MediaGroupTagsOnlyCaption | src/telegram_mcp_server/__init__.py:104-106 | with no caption but tags, the caption is formatted onto `""` |
| Telegram.LinkMessageIsMessage | src/telegram_mcp_server/__init__.py:128-141 | a link message is `send_message` of text + `\n\n` + link, preview enabled, with the tags after the link |
| Telegram.SendLinkWithPreview | src/telegram_mcp_server/__init__.py:128-141 | one `sendMessage` call with the preview enabled whose text starts with the text, a blank line and the link, and is longer exactly when tags are given (partner: `Telegram.LinkMessageIsMessage`) |

## Left out

- HTTP transport is not modelled: headers (bearer tokens), timeouts, status codes other than
  `delete_post`'s, and exceptions raised by `requests` or by `.json()` decoding. Calls are
  request records and answers are inputs.
- MCP plumbing is not modelled: `main`, the `Server` object, tool schema listings and the stdio
  transport.
- Environment loading (`load_*_config`, `load_dotenv`), logging, and the Windows stream
  re-encoding are not modelled.
- `facebook_cli_tool.py`, `get_instagram_id.py` and `fetch_last_posts.py` are not part of this
  model. They are command-line scripts around the managers.
- `str.lower()` is modelled for ASCII letters only; Unicode case mapping is not modelled.
- The dispatcher's `str(result)` rendering of results into text is not modelled. The model keeps
  the value it would render (`FacebookTools.ToolValue`).
- FacebookTools.HandleCallTool requires every argument to have the JSON kind its tool schema
  declares: a list for `media_urls` and `platforms`, a string otherwise. Wrongly typed
  arguments, for example a string `platforms` where Python's `in` would test substrings, are
  not modelled.
- The LinkedIn and Telegram servers' own `handle_call_tool` dispatchers are not modelled.
- The pass-through operations are modelled only as request builders, or not at all:
  - Facebook `get_page_posts`, `get_post_comments`, `reply_to_comment`, `delete_post` and
    `delete_comment` are request builders, reached through the dispatcher;
  - LinkedIn `list_recent_posts`, `comment_on_post` and `get_comments` are not modelled;
  - Telegram `get_updates` is not modelled.
- LinkedIn.Registration: a register answer is either "has `value`", with the asset and upload
  URL, or not. An answer that has `value` but lacks the nested `asset` or `uploadUrl` keys
  raises `KeyError` in the source; that case is not modelled.
- The image bytes fetched and uploaded by LinkedIn are not modelled. The upload request names
  the image URL whose bytes it carries.
- Facebook.GraphReplies and LinkedIn.RegistrationAt: when a workflow makes more per-item calls
  than answers were supplied, the extra calls are taken to return no id or a failed
  registration.
