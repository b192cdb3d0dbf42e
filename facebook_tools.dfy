/** The tool dispatcher of the Facebook server: a tool name and its arguments in, one text
    result out. Every failure becomes an "Error: ..." result; nothing escapes the dispatcher. */
module FacebookTools {
  import opened Wrappers
  import opened Http
  import opened Facebook

  /** A tool argument, of the JSON kind its schema declares: a string or a list of strings. */
  datatype Arg = TextArg(text: string) | ListArg(items: seq<string>)

  const ListArguments: set<string> := {"media_urls", "platforms"}

  /** Every argument has the JSON kind the tool schemas declare for its name. */
  predicate WellKinded(arguments: Option<map<string, Arg>>) {
    arguments.Some? ==>
      forall k :: k in arguments.value ==> (arguments.value[k].ListArg? <==> k in ListArguments)
  }

  /** The eight tools the server lists. */
  datatype Tool =
    | PostToFacebookTool | PostMediaTool | ReplyToCommentTool | GetPagePostsTool
    | GetPostCommentsTool | FilterNegativeCommentsTool | DeletePostTool | DeleteCommentTool

  /** The tool a name selects, tried in the handler's order; `None` for an unknown name. */
  function ParseTool(name: string): Option<Tool> {
    if name == "post_to_facebook" then Some(PostToFacebookTool)
    else if name == "post_media" then Some(PostMediaTool)
    else if name == "reply_to_comment" then Some(ReplyToCommentTool)
    else if name == "get_page_posts" then Some(GetPagePostsTool)
    else if name == "get_post_comments" then Some(GetPostCommentsTool)
    else if name == "filter_negative_comments" then Some(FilterNegativeCommentsTool)
    else if name == "delete_post" then Some(DeletePostTool)
    else if name == "delete_comment" then Some(DeleteCommentTool)
    else None
  }

  /** The arguments each tool's handler branch reads, in the order it reads them. */
  function RequiredArguments(tool: Tool): seq<string> {
    match tool
    case PostToFacebookTool => ["message"]
    case PostMediaTool => ["caption", "media_urls", "media_type", "platforms"]
    case ReplyToCommentTool => ["post_id", "comment_id", "message"]
    case GetPagePostsTool => []
    case GetPostCommentsTool => ["post_id"]
    case FilterNegativeCommentsTool => ["post_id"]
    case DeletePostTool => ["post_id"]
    case DeleteCommentTool => ["comment_id"]
  }

  /** `str(KeyError(key))`: the key in quotes. */
  function KeyErrorMessage(key: string): string {
    "'" + key + "'"
  }

  const NoArgumentsMessage: string := "'NoneType' object is not subscriptable"

  /** The message of the first key lookup that fails, reading `keys` in order. */
  function FirstMissing(arguments: map<string, Arg>, keys: seq<string>): (e: Option<string>)
    ensures e.None? <==> forall i :: 0 <= i < |keys| ==> keys[i] in arguments
  {
    if keys == [] then None
    else if keys[0] !in arguments then Some(KeyErrorMessage(keys[0]))
    else
      var rest := FirstMissing(arguments, keys[1..]);
      assert forall i :: 1 <= i < |keys| ==> keys[i] == keys[1..][i - 1];
      rest
  }

  /** What reading `keys` out of `arguments` raises, if anything: subscripting `None` fails on
      the first read, a missing key with `KeyError`. */
  function ArgumentError(arguments: Option<map<string, Arg>>, keys: seq<string>): Option<string> {
    if keys == [] then None
    else if arguments.None? then Some(NoArgumentsMessage)
    else FirstMissing(arguments.value, keys)
  }

  /** What the Graph API answers to the calls a tool makes: the decoded body of a single-request
      tool, the comments response, and the replies of the two publishing workflows. */
  datatype FacebookNet = FacebookNet(reply: Json, comments: CommentsPage, fb: GraphReplies, ig: GraphReplies)

  /** The value a tool hands back before it is rendered with `str()`. */
  datatype ToolValue =
    | JsonValue(json: Json)
    | MediaResults(results: map<string, Json>)
    | CommentsValue(page: CommentsPage)
    | NegativeValue(comments: seq<Comment>)

  datatype ToolResult = TextResult(value: ToolValue) | ErrorResult(text: string)

  /** The requests one tool call made and the text content it returned. */
  datatype Handled = Handled(requests: seq<Request>, result: ToolResult)

  /** `except Exception as e: return [TextContent(text=f"Error: {str(e)}")]`. */
  function Fail(message: string): Handled {
    Handled([], ErrorResult("Error: " + message))
  }

  /** The branch of a known tool once all its arguments were read. */
  function Invoke(m: FacebookManager, tool: Tool, args: map<string, Arg>, net: FacebookNet): Handled
    requires WellKinded(Some(args))
    requires forall k :: k in RequiredArguments(tool) ==> k in args
  {
    match tool
    case PostToFacebookTool =>
      Handled([FeedPostRequest(m, args["message"].text)], TextResult(JsonValue(net.reply)))
    case PostMediaTool =>
      assert "media_type"[6] != "media_urls"[6];
      var p := PostMediaPlan(m, args["caption"].text, args["media_urls"].items, args["media_type"].text,
                             args["platforms"].items, net.fb, net.ig);
      Handled(p.requests, TextResult(MediaResults(p.results)))
    case ReplyToCommentTool =>
      Handled([ReplyToCommentRequest(m, args["comment_id"].text, args["message"].text)],
              TextResult(JsonValue(net.reply)))
    case GetPagePostsTool =>
      Handled([PagePostsRequest(m)], TextResult(JsonValue(net.reply)))
    case GetPostCommentsTool =>
      Handled([CommentsRequest(m, args["post_id"].text)], TextResult(CommentsValue(net.comments)))
    case FilterNegativeCommentsTool =>
      Handled([CommentsRequest(m, args["post_id"].text)],
              TextResult(NegativeValue(NegativeComments(net.comments))))
    case DeletePostTool =>
      Handled([DeleteRequest(m, args["post_id"].text)], TextResult(JsonValue(net.reply)))
    case DeleteCommentTool =>
      assert "comment_id"[0] != "media_urls"[0];
      Handled([DeleteRequest(m, args["comment_id"].text)], TextResult(JsonValue(net.reply)))
  }

  /** `handle_call_tool`: route by name; an unknown name or an argument that cannot be read
      becomes an error result before any request is made, and every result is text. */
  function HandleCallTool(m: FacebookManager, name: string, arguments: Option<map<string, Arg>>,
                          net: FacebookNet): (h: Handled)
    requires WellKinded(arguments)
    ensures h.result.ErrorResult? ==> h.requests == [] && |h.result.text| >= 7 && h.result.text[..7] == "Error: "
    ensures ParseTool(name).None? ==> h == Fail("Unknown tool: " + name)
    ensures ParseTool(name).Some? ==>
      (h.result.ErrorResult? <==> ArgumentError(arguments, RequiredArguments(ParseTool(name).value)).Some?)
  {
    match ParseTool(name)
    case None =>
      Fail("Unknown tool: " + name)
    case Some(tool) =>
      match ArgumentError(arguments, RequiredArguments(tool))
      case Some(e) => Fail(e)
      case None => Invoke(m, tool, arguments.GetOr(map[]), net)
  }

  /** A known tool whose i-th argument is the first one missing fails with `KeyError` naming
      that argument, and makes no request. */
  lemma MissingArgumentNamed(m: FacebookManager, name: string, args: map<string, Arg>, i: nat, net: FacebookNet)
    requires ParseTool(name).Some? && WellKinded(Some(args))
    requires var keys := RequiredArguments(ParseTool(name).value);
      && i < |keys| && keys[i] !in args
      && forall j :: 0 <= j < i ==> keys[j] in args
    ensures HandleCallTool(m, name, Some(args), net) ==
      Fail(KeyErrorMessage(RequiredArguments(ParseTool(name).value)[i]))
  {
    var keys := RequiredArguments(ParseTool(name).value);
    FirstMissingIsFirst(args, keys, i);
  }

  lemma {:induction false} FirstMissingIsFirst(args: map<string, Arg>, keys: seq<string>, i: nat)
    requires i < |keys| && keys[i] !in args
    requires forall j :: 0 <= j < i ==> keys[j] in args
    ensures FirstMissing(args, keys) == Some(KeyErrorMessage(keys[i]))
    decreases i
  {
    if i > 0 {
      FirstMissingIsFirst(args, keys[1..], i - 1);
    }
  }

  /** `filter_negative_comments` fetches the post's comments once and returns the negative
      ones. */
  lemma FilterToolFetchesThenFilters(m: FacebookManager, name: string, args: map<string, Arg>, net: FacebookNet)
    requires ParseTool(name) == Some(FilterNegativeCommentsTool)
    requires WellKinded(Some(args)) && "post_id" in args
    ensures HandleCallTool(m, name, Some(args), net) ==
      Handled([CommentsRequest(m, args["post_id"].text)], TextResult(NegativeValue(NegativeComments(net.comments))))
  {
    assert RequiredArguments(FilterNegativeCommentsTool) == ["post_id"];
    assert ArgumentError(Some(args), ["post_id"]) == None;
    assert HandleCallTool(m, name, Some(args), net) == Invoke(m, FilterNegativeCommentsTool, args, net);
  }

  /** Called with no arguments at all, a tool that reads an argument fails on the first read
      with the `TypeError` of subscripting `None`, and makes no request; `get_page_posts`, which
      reads none, still runs. */
  lemma NoArgumentsFailsOnFirstRead(m: FacebookManager, name: string, net: FacebookNet)
    requires ParseTool(name).Some?
    ensures RequiredArguments(ParseTool(name).value) != [] ==>
      HandleCallTool(m, name, None, net) == Fail(NoArgumentsMessage)
    ensures ParseTool(name) == Some(GetPagePostsTool) ==>
      HandleCallTool(m, name, None, net) == Handled([PagePostsRequest(m)], TextResult(JsonValue(net.reply)))
  {
    var tool := ParseTool(name).value;
    if RequiredArguments(tool) != [] {
      assert ArgumentError(None, RequiredArguments(tool)) == Some(NoArgumentsMessage);
      assert HandleCallTool(m, name, None, net) == Fail(NoArgumentsMessage);
    } else if tool == GetPagePostsTool {
      assert HandleCallTool(m, name, None, net) == Invoke(m, GetPagePostsTool, map[], net);
    }
  }

  /** The name the server lists for each tool. */
  function ToolName(tool: Tool): string {
    match tool
    case PostToFacebookTool => "post_to_facebook"
    case PostMediaTool => "post_media"
    case ReplyToCommentTool => "reply_to_comment"
    case GetPagePostsTool => "get_page_posts"
    case GetPostCommentsTool => "get_post_comments"
    case FilterNegativeCommentsTool => "filter_negative_comments"
    case DeletePostTool => "delete_post"
    case DeleteCommentTool => "delete_comment"
  }

  /** Every listed name reaches its own tool's branch: no earlier test in the chain catches a
      later tool's name, and the names are pairwise distinct. */
  lemma AllNamesRoute(tool: Tool)
    ensures ParseTool(ToolName(tool)) == Some(tool)
  {
  }
}
