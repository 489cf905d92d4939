/**
 * The chat front end's text rules (app/ui/chainlit_app.py): the `!tool:<name>` prefix that
 * forces a tool, the greeting short-cut, and the cut applied to tool observations shown in
 * the scratchpad.
 */
module Chainlit {
  import opened Wrappers
  import opened Text

  /** The force prefix, compared after lower-casing. */
  const ForcePrefix := "!tool:"

  /** The messages answered with the greeting reply, after trimming and lower-casing. */
  const GreetingWords: set<string> := {"bonjour", "salut", "hello"}

  /** How many characters of an observation the scratchpad shows. */
  const ObservationLimit: nat := 1200

  /** `after.split(" ", 1)` when `after` holds a space, and `(after, "")` otherwise. */
  function FirstWord(after: string): (r: (string, string))
    ensures ' ' !in r.0
    ensures ' ' in after ==> r.0 + " " + r.1 == after
    ensures ' ' !in after ==> r == (after, "")
  {
    if ' ' in after then SplitOnce(after, ' ') else (after, "")
  }

  /** The tool name: the first word of the text after the prefix, trimmed. It holds no space and no outer whitespace. */
  function ToolName(after: string): (tool: string)
    ensures ' ' !in tool
    ensures tool == [] || (!IsSpace(tool[0]) && !IsSpace(tool[|tool| - 1]))
  {
    var w := FirstWord(after).0;
    StripAvoids(w, ' ');
    Strip(w)
  }

  /** The query: the rest after the first space, trimmed, or a single space when nothing is left. It is never empty. */
  function QueryOf(after: string): (query: string)
    ensures query == " " || (query != [] && !IsSpace(query[0]) && !IsSpace(query[|query| - 1]))
  {
    var q := Strip(FirstWord(after).1);
    if q == [] then " " else q
  }

  /** The part of `_parse_force_tool` after the prefix: the tool name and the query. */
  function SplitTool(after: string): (Option<string>, string) {
    (Some(ToolName(after)), QueryOf(after))
  }

  /** `_parse_force_tool`: the forced tool's name (or `None`) and the query. */
  function ParseForceTool(msg: string): (r: (Option<string>, string))
    ensures r.0.None? <==> !StartsWith(LowerStr(Strip(msg)), ForcePrefix)
    ensures r.0.None? ==> r.1 == msg
    ensures r.0.Some? ==> r == SplitTool(Strip(Strip(msg)[|ForcePrefix|..]))
  {
    var txt := Strip(msg);
    if StartsWith(LowerStr(txt), ForcePrefix) then SplitTool(Strip(txt[|ForcePrefix|..])) else (None, msg)
  }

  /** A word spelled `!tool:` in any case is the force prefix, and starts with no whitespace. */
  lemma PrefixSpelling(p: string)
    requires LowerStr(p) == ForcePrefix
    ensures |p| == |ForcePrefix| && p[0] == '!' && p[|p| - 1] == ':'
  {
    assert Lower(p[0]) == '!' && Lower(p[5]) == ':';
  }

  /** The first word of a word without spaces, a space and a rest is that word, and the rest. */
  lemma FirstWordOf(tool: string, rest: string)
    requires ' ' !in tool
    ensures FirstWord(tool + " " + rest) == (tool, rest)
  {
    var after := tool + " " + rest;
    assert after[..|tool|] == tool && after[|tool|] == ' ';
    SplitOnceAt(after, ' ', |tool|);
    assert after[|tool| + 1..] == rest;
  }

  /** A tool name without whitespace, then a space and a trimmed query, split back into the two. */
  lemma SplitToolOf(tool: string, query: string)
    requires tool != [] && NoSpace(tool)
    requires query != [] && !IsSpace(query[0]) && !IsSpace(query[|query| - 1])
    ensures SplitTool(tool + " " + query) == (Some(tool), query)
  {
    assert ' ' !in tool;
    FirstWordOf(tool, query);
    StripUnchanged(tool);
    StripUnchanged(query);
  }

  /** A tool name alone gives that name and the one-space query. */
  lemma SplitToolAlone(tool: string)
    requires tool != [] && NoSpace(tool)
    ensures SplitTool(tool) == (Some(tool), " ")
  {
    StripUnchanged(tool);
    assert ' ' !in tool;
  }

  /**
   * A forced command, `!tool:` in any case, then a tool name without whitespace, a space
   * and a trimmed query, parses back into that name and that query.
   */
  lemma ForceRoundTrip(p: string, tool: string, query: string)
    requires LowerStr(p) == ForcePrefix
    requires tool != [] && NoSpace(tool)
    requires query != [] && !IsSpace(query[0]) && !IsSpace(query[|query| - 1])
    ensures ParseForceTool(p + tool + " " + query) == (Some(tool), query)
  {
    PrefixSpelling(p);
    var after := tool + " " + query;
    var msg := p + after;
    assert p + tool + " " + query == msg;
    StripUnchanged(msg);
    PrefixedText(p, after);
    StripUnchanged(after);
    SplitToolOf(tool, query);
  }

  /** A forced tool with nothing after its name, trailing whitespace aside, gets the one-space query. */
  lemma ForceWithoutQuery(p: string, tool: string, post: string)
    requires LowerStr(p) == ForcePrefix
    requires tool != [] && NoSpace(tool) && AllSpace(post)
    ensures ParseForceTool(p + tool + post) == (Some(tool), " ")
  {
    PrefixSpelling(p);
    var msg := p + tool + post;
    StripAt(msg, 0, |p| + |tool|);
    assert msg[..|p| + |tool|] == p + tool;
    PrefixedText(p, tool);
    StripUnchanged(tool);
    SplitToolAlone(tool);
  }

  /** A text led by the prefix, in any case, is recognised, and what follows it is the rest of the text. */
  lemma PrefixedText(p: string, rest: string)
    requires LowerStr(p) == ForcePrefix
    ensures StartsWith(LowerStr(p + rest), ForcePrefix) && (p + rest)[|ForcePrefix|..] == rest
  {
    assert LowerStr(p + rest)[..|p|] == LowerStr(p);
  }

  /** The turn `on_message` takes: the greeting reply, a forced tool, or the routed question. */
  datatype Turn = Greeting | Forced(tool: string, query: string) | Routed(text: string)

  /** The decision in `on_message`, on the trimmed message. */
  function OnMessage(content: string): (t: Turn)
    ensures t == Greeting <==> LowerStr(Strip(content)) in GreetingWords
    ensures t.Forced? ==> t.tool != [] && ParseForceTool(Strip(content)) == (Some(t.tool), t.query)
    ensures t.Routed? ==> t.text == Strip(content) && !Truthy(ParseForceTool(Strip(content)).0)
    ensures t != Greeting && Truthy(ParseForceTool(Strip(content)).0) ==> t.Forced?
  {
    var txt := Strip(content);
    if LowerStr(txt) in GreetingWords then Greeting
    else
      var (forced, query) := ParseForceTool(txt);
      if forced.Some? && forced.value != [] then Forced(forced.value, query) else Routed(txt)
  }

  /** A greeting word in any case, surrounded by whitespace, gets the greeting reply. */
  lemma PaddedGreeting(pre: string, w: string, post: string)
    requires AllSpace(pre) && AllSpace(post) && LowerStr(w) in GreetingWords
    ensures OnMessage(pre + w + post) == Greeting
  {
    var s := pre + w + post;
    var lw := LowerStr(w);
    assert lw[0] in {'b', 's', 'h'} && lw[|lw| - 1] in {'r', 't', 'o'};
    assert !IsSpace(w[0]) && !IsSpace(w[|w| - 1]);
    assert s[..|pre|] == pre && s[|pre| + |w|..] == post && s[|pre|..|pre| + |w|] == w;
    StripAt(s, |pre|, |pre| + |w|);
  }

  /** A bare `!tool:` (in any case) forces nothing: the empty tool name sends the message to the router. */
  lemma EmptyForceIsRouted(p: string, post: string)
    requires LowerStr(p) == ForcePrefix && AllSpace(post)
    ensures OnMessage(p + post) == Routed(p)
  {
    PrefixSpelling(p);
    var s := p + post;
    assert s[..|p|] == p && s[|p|..] == post;
    StripAt(s, 0, |p|);
    assert LowerStr(p) !in GreetingWords;
  }

  /** `obs[:1200]` followed by `…` exactly when the observation is longer than that. */
  function TruncateObservation(obs: string): (shown: string)
    ensures |obs| <= ObservationLimit ==> shown == obs
    ensures |obs| > ObservationLimit ==>
              |shown| == ObservationLimit + 1 && shown[..ObservationLimit] == obs[..ObservationLimit]
              && shown[ObservationLimit] == '…'
  {
    if |obs| > ObservationLimit then obs[..ObservationLimit] + "…" else obs
  }

  /** The shown text is never longer than the limit plus the ellipsis, and cutting it again changes nothing. */
  lemma TruncateStable(obs: string)
    ensures |TruncateObservation(obs)| <= ObservationLimit + 1
    ensures TruncateObservation(TruncateObservation(obs)) == TruncateObservation(obs)
  {
    var shown := TruncateObservation(obs);
    if |obs| > ObservationLimit {
      assert shown[..ObservationLimit] == obs[..ObservationLimit];
    }
  }
}
