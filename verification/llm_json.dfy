/**
 * `get_json_openai` in `utils/llm.py`: the request it sends to the chat-completion service
 * and the way it turns the reply text into a JSON value. The service itself is a parameter:
 * its reply is `None` when the call raised (or returned no text) and `Some(text)` otherwise;
 * `json.loads` is the parameter `parse`, which gives `None` on a decoding error.
 */
module LlmJson {
  import opened Wrappers
  import opened PyJson
  import opened PyText
  import GeocodeUtils

  const Model: string := "gpt-4o"

  // ---------------------------------------------------------------- the request

  function Message(role: string, content: string): Json {
    JObj(map["role" := JStr(role), "content" := JStr(content)])
  }

  /** The keyword arguments of the chat-completion call. */
  function RequestKwargs(system: string, user: string, forceObject: bool): (r: Record)
    ensures r.Keys == {"model", "messages", "temperature"} + (if forceObject then {"response_format"} else {})
    ensures r["temperature"] == JNum(0.0) && r["model"] == JStr(Model)
  {
    var base := map[
      "model" := JStr(Model),
      "messages" := JArr([Message("system", system), Message("user", user)]),
      "temperature" := JNum(0.0)];
    if forceObject then base["response_format" := JObj(map["type" := JStr("json_object")])]
    else base
  }

  /**
   * The request always names the fixed model with temperature zero and passes the two
   * prompts verbatim, system first; it asks for a JSON object exactly when `forceObject` is set.
   */
  lemma RequestKwargsShape(system: string, user: string, forceObject: bool)
    ensures var k := RequestKwargs(system, user, forceObject);
      k.Keys == {"model", "messages", "temperature"} + (if forceObject then {"response_format"} else {}) &&
      ("response_format" in k <==> forceObject) &&
      (forceObject ==> k["response_format"] == JObj(map["type" := JStr("json_object")])) &&
      k["model"] == JStr("gpt-4o") && k["temperature"] == JNum(0.0) &&
      k["messages"].JArr? && |k["messages"].items| == 2 &&
      k["messages"].items[0].fields["role"] == JStr("system") &&
      k["messages"].items[0].fields["content"] == JStr(system) &&
      k["messages"].items[1].fields["role"] == JStr("user") &&
      k["messages"].items[1].fields["content"] == JStr(user)
  {
  }

  // ---------------------------------------------------------------- the reply

  /**
   * Fence removal on the stripped reply text: a text starting with three backticks loses
   * everything up to its first newline (or just the backticks when there is no newline),
   * then everything from its last newline on (or its last three characters), then is stripped.
   */
  function CleanContent(content: string): (r: string)
    ensures !StartsWith(content, GeocodeUtils.Fence) ==> r == content
    ensures StartsWith(content, GeocodeUtils.Fence) ==> Trimmed(r)
  {
    if !StartsWith(content, GeocodeUtils.Fence) then content
    else
      var afterOpen := if '\n' in content then AfterFirst(content, '\n') else DropFirst(content, 3);
      var beforeClose := if '\n' in afterOpen then BeforeLast(afterOpen, '\n') else DropLast(afterOpen, 3);
      StripTrimmed(beforeClose);
      Strip(beforeClose)
  }

  /** The outcome of `json.loads` on a text: a decoding error is re-raised as a ValueError. */
  function Decode(text: string, parse: string -> Option<Json>): (r: Result<Json>)
    ensures r.Ok? <==> parse(text).Some?
    ensures r.Ok? ==> r.value == parse(text).value
    ensures r.Err? ==> r.fault == ValueError
  {
    match parse(text)
    case None => Err(ValueError)
    case Some(j) => Ok(j)
  }

  /** `get_json_openai` once the request has been made, given the reply text. */
  function GetJson(reply: Option<string>, parse: string -> Option<Json>): (r: Result<Json>)
    ensures reply.None? ==> r == Err(ServiceError)
    ensures reply.Some? && Strip(reply.value) == [] ==> r == Err(ValueError)
    ensures r.Ok? ==> reply.Some? && parse(CleanContent(Strip(reply.value))) == Some(r.value)
  {
    match reply
    case None => Err(ServiceError)
    case Some(raw) =>
      var content := Strip(raw);
      if content == [] then Err(ValueError)
      else Decode(CleanContent(content), parse)
  }

  /** A failed call is re-raised; a reply with nothing but whitespace raises ValueError. */
  lemma GetJsonFailures(reply: Option<string>, parse: string -> Option<Json>)
    ensures reply.None? ==> GetJson(reply, parse) == Err(ServiceError)
    ensures reply.Some? && AllSpace(reply.value) ==> GetJson(reply, parse) == Err(ValueError)
  {
    if reply.Some? && AllSpace(reply.value) {
      AllSpaceTrimLeft(reply.value);
    }
  }

  /**
   * The value returned is always what the parser made of the cleaned text, never a default:
   * the call succeeds exactly when the reply exists, is not blank and its cleaned text parses.
   */
  lemma GetJsonSpec(reply: Option<string>, parse: string -> Option<Json>)
    ensures var r := GetJson(reply, parse);
      (r.Ok? <==> reply.Some? && Strip(reply.value) != [] && parse(CleanContent(Strip(reply.value))).Some?) &&
      (r.Ok? ==> r.value == parse(CleanContent(Strip(reply.value))).value) &&
      (r.Err? && reply.Some? ==> r.fault == ValueError)
  {
  }

  /** A reply that does not start with a fence is parsed as it is, once stripped. */
  lemma GetJsonPlain(raw: string, parse: string -> Option<Json>)
    requires Strip(raw) != [] && !StartsWith(Strip(raw), GeocodeUtils.Fence)
    ensures GetJson(Some(raw), parse) == Decode(Strip(raw), parse)
  {
  }

  /** A fenced reply whose first line is the fence and a newline-free tag. */
  function Block(tag: string, body: string): string {
    GeocodeUtils.Fence + (tag + ("\n" + body + "\n")) + GeocodeUtils.Fence
  }

  lemma BlockOpen(tag: string, body: string)
    ensures Block(tag, body) == (GeocodeUtils.Fence + tag) + ['\n'] + (body + ['\n'] + GeocodeUtils.Fence)
  {
  }

  /** After the first newline of a block come the body, a newline and the closing fence. */
  lemma BlockAfterOpen(tag: string, body: string)
    requires '\n' !in tag
    ensures '\n' in Block(tag, body)
    ensures AfterFirst(Block(tag, body), '\n') == body + ['\n'] + GeocodeUtils.Fence
  {
    BlockOpen(tag, body);
    assert '\n' !in GeocodeUtils.Fence + tag;
    AfterFirstOf(GeocodeUtils.Fence + tag, '\n', body + ['\n'] + GeocodeUtils.Fence);
  }

  /**
   * Whatever the body (several lines, blank, itself containing backticks), a block whose
   * first line holds the fence and a tag cleans to the stripped body.
   */
  lemma CleanContentBlock(tag: string, body: string)
    requires '\n' !in tag
    ensures CleanContent(Block(tag, body)) == Strip(body)
  {
    var s := Block(tag, body);
    assert s[..3] == GeocodeUtils.Fence;
    BlockAfterOpen(tag, body);
    assert '\n' !in GeocodeUtils.Fence;
    BeforeLastOf(body, '\n', GeocodeUtils.Fence);
  }

  /** A non-blank reply that `strip()` leaves alone goes through the fence cleanup and the parser. */
  lemma GetJsonTrimmed(s: string, parse: string -> Option<Json>)
    requires s != [] && Strip(s) == s
    ensures GetJson(Some(s), parse) == Decode(CleanContent(s), parse)
  {
  }

  /** A block is not blank and `strip()` leaves it alone. */
  lemma BlockTrimmed(tag: string, body: string)
    ensures Strip(Block(tag, body)) == Block(tag, body)
  {
    GeocodeUtils.FencedTrimmed(tag + ("\n" + body + "\n"));
  }

  lemma BlockNotBlank(tag: string, body: string)
    ensures Block(tag, body) != []
  {
  }

  /** A fenced block is what a successful reply most often looks like: only its body is parsed. */
  lemma GetJsonBlock(tag: string, body: string, parse: string -> Option<Json>)
    requires '\n' !in tag
    ensures GetJson(Some(Block(tag, body)), parse) == Decode(Strip(body), parse)
  {
    BlockTrimmed(tag, body);
    BlockNotBlank(tag, body);
    CleanContentBlock(tag, body);
    GetJsonTrimmed(Block(tag, body), parse);
  }

  /** A reply without any newline: three characters go at each end of the fenced text. */
  lemma CleanContentOneLine(content: string)
    requires StartsWith(content, GeocodeUtils.Fence) && '\n' !in content
    ensures |content| >= 6 ==> CleanContent(content) == Strip(content[3..|content| - 3])
    ensures |content| < 6 ==> CleanContent(content) == []
  {
    var afterOpen := content[3..];
    assert DropFirst(content, 3) == afterOpen;
    assert '\n' !in afterOpen by {
      forall i | 0 <= i < |afterOpen| ensures afterOpen[i] != '\n' {
        assert afterOpen[i] == content[i + 3];
      }
    }
    if |content| >= 6 {
      assert DropLast(afterOpen, 3) == content[3..|content| - 3];
    }
  }

  /**
   * On a "```json" block, this cleanup and the one of `utils/geocode.py` agree: both give
   * the stripped body.
   */
  lemma CleanupsAgreeOnJsonBlock(body: string)
    ensures CleanContent(Block("json", body)) == GeocodeUtils.CleanFenced(GeocodeUtils.JsonBlock(body))
    ensures CleanContent(Block("json", body)) == Strip(body)
  {
    assert '\n' !in "json";
    CleanContentBlock("json", body);
    GeocodeUtils.CleanFencedBlock(body);
  }

  /** A one-line reply: the fence, `json` and a body with no newline, then the fence again. */
  function OneLine(body: string): string {
    GeocodeUtils.Fence + ("json" + body) + GeocodeUtils.Fence
  }

  lemma OneLineNoNewline(body: string)
    requires '\n' !in body
    ensures '\n' !in OneLine(body)
    ensures OneLine(body)[3..|OneLine(body)| - 3] == "json" + body
  {
    var s := OneLine(body);
    forall i | 0 <= i < |s| ensures s[i] != '\n' {
      if 7 <= i < 7 + |body| {
        assert s[i] == body[i - 7];
      }
    }
  }

  /** This cleanup keeps the tag of a one-line reply. */
  lemma OneLineKeepsTag(body: string)
    requires '\n' !in body && body != [] && !IsSpace(body[|body| - 1])
    ensures CleanContent(OneLine(body)) == "json" + body
  {
    var s := OneLine(body);
    assert s[..3] == GeocodeUtils.Fence;
    OneLineNoNewline(body);
    CleanContentOneLine(s);
    var t := "json" + body;
    assert t[0] == 'j' && t[|t| - 1] == body[|body| - 1];
    StripOfTrimmed(t);
  }

  /** The cleanup of `utils/geocode.py` drops the tag of a one-line reply. */
  lemma OneLineDropsTag(body: string)
    ensures GeocodeUtils.CleanFenced(OneLine(body)) == Strip(body)
  {
    var t := "json" + body;
    GeocodeUtils.FencedTrimmed(t);
    GeocodeUtils.UnfenceBlock(t);
    UntagLine(body);
  }

  lemma UntagLine(body: string)
    ensures GeocodeUtils.Untag(Strip("json" + body)) == Strip(body)
  {
    var t := "json" + body;
    assert t[0] == 'j';
    TrimLeftNonSpace(t);
    TrimRightAfter("json", body);
    var c := "json" + TrimRight(body);
    assert Strip(t) == c;
    assert c[..4] == "json" && c[4..] == TrimRight(body);
    StripTrimRight(body);
  }

  /**
   * On a one-line reply tagged `json` the two cleanups differ: this one hands the parser
   * a text that still starts with the tag, the other one only the body.
   */
  lemma CleanupsDifferOnOneLine(body: string)
    requires '\n' !in body && body != [] && !IsSpace(body[|body| - 1])
    ensures StartsWith(CleanContent(OneLine(body)), "json")
    ensures GeocodeUtils.CleanFenced(OneLine(body)) == Strip(body)
  {
    OneLineKeepsTag(body);
    OneLineDropsTag(body);
  }
}
