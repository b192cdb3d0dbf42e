/** The hashtag formatter. LinkedIn and Telegram each carry an identical copy of it; here it is
    defined once and both platform modules use it. */
module Hashtags {
  import opened Wrappers
  import opened Text

  /** The end of the run of '#' that starts at position `i`. */
  function HashRunEnd(tag: string, i: nat): (n: nat)
    requires i <= |tag|
    ensures i <= n <= |tag|
    ensures forall k :: i <= k < n ==> tag[k] == '#'
    ensures n == |tag| || tag[n] != '#'
    decreases |tag| - i
  {
    if i < |tag| && tag[i] == '#' then HashRunEnd(tag, i + 1) else i
  }

  /** `tag.lstrip('#')`: the tag without its leading run of '#'. */
  function StripLeadingHashes(tag: string): (rest: string)
    ensures |rest| <= |tag| && rest == tag[|tag| - |rest|..]
    ensures forall k :: 0 <= k < |tag| - |rest| ==> tag[k] == '#'
    ensures rest == [] || rest[0] != '#'
  {
    tag[HashRunEnd(tag, 0)..]
  }

  /** `f"#{tag.lstrip('#')}"`: the tag with exactly one leading '#'. */
  function NormalizeTag(tag: string): (t: string)
    ensures |t| >= 1 && t[0] == '#'
    ensures |t| == 1 || t[1] != '#'
    ensures |t| - 1 <= |tag| && t[1..] == tag[|tag| - (|t| - 1)..]
    ensures forall k :: 0 <= k < |tag| - (|t| - 1) ==> tag[k] == '#'
  {
    "#" + StripLeadingHashes(tag)
  }

  /** The tags, normalised, in input order. */
  function NormalizedTags(tags: seq<string>): (ts: seq<string>)
    ensures |ts| == |tags|
  {
    seq(|tags|, i requires 0 <= i < |tags| => NormalizeTag(tags[i]))
  }

  /** `" ".join(f"#{tag.lstrip('#')}" for tag in hashtags)`. */
  function TagLine(tags: seq<string>): string {
    Join(" ", NormalizedTags(tags))
  }

  /** `_format_text_with_hashtags(text, hashtags)`: the text, then a blank line and the tag line
      when a non-empty tag list is given. The text is always kept as a prefix, and the result is
      longer than the text exactly when there are tags. */
  function FormatTextWithHashtags(text: string, hashtags: Option<seq<string>>): (r: string)
    ensures |r| >= |text| && r[..|text|] == text
    ensures HasItems(hashtags) <==> |r| > |text|
    ensures HasItems(hashtags) ==> |r| > |text| + 2 && r[|text|..|text| + 2] == "\n\n"
  {
    if !HasItems(hashtags) then text
    else text + "\n\n" + TagLine(hashtags.value)
  }

  /** A tag that already starts with '#' is normalised as if it did not, so normalising twice
      changes nothing. */
  lemma NormalizeIgnoresLeadingHash(tag: string)
    ensures NormalizeTag("#" + tag) == NormalizeTag(tag)
    ensures NormalizeTag(NormalizeTag(tag)) == NormalizeTag(tag)
  {
    assert ("#" + tag)[1..] == tag;
    var rest := StripLeadingHashes(tag);
    assert ("#" + rest)[1..] == rest;
  }

  /** A space-free tag stays space-free once normalised. */
  lemma NormalizeKeepsSpaceFree(tag: string)
    requires ' ' !in tag
    ensures ' ' !in NormalizeTag(tag)
  {
    var t := NormalizeTag(tag);
    forall k | 0 <= k < |t|
      ensures t[k] != ' '
    {
      if k > 0 {
        assert t[k] == t[1..][k - 1];
      }
    }
  }

  /** For space-free tags the appended line splits back into the tags, in input order, each
      carrying exactly one leading '#'. */
  lemma {:induction false} TagLineSplitsIntoTags(tags: seq<string>)
    requires |tags| >= 1
    requires forall i :: 0 <= i < |tags| ==> ' ' !in tags[i]
    ensures Split(TagLine(tags), ' ') == NormalizedTags(tags)
    ensures forall i :: 0 <= i < |tags| ==>
      var t := Split(TagLine(tags), ' ')[i];
      t[0] == '#' && (|t| == 1 || t[1] != '#') && t == NormalizeTag(tags[i])
  {
    var ts := NormalizedTags(tags);
    forall k | 0 <= k < |ts|
      ensures ' ' !in ts[k]
    {
      NormalizeKeepsSpaceFree(tags[k]);
    }
    SplitJoin(ts, ' ');
  }

  /** With tags, the formatted text is the text, a blank line, and the tag line; the output is
      never empty, even for an empty text. */
  lemma FormatWithTags(text: string, tags: seq<string>)
    requires tags != []
    ensures FormatTextWithHashtags(text, Some(tags)) == text + "\n\n" + TagLine(tags)
    ensures FormatTextWithHashtags(text, Some(tags)) != ""
  {
  }
}
