/**
  Decoding the CLI's stdout (`parseResponse`): a JSON array of protocol
  messages, of which the first with `type === "result"` is read. Its payload is
  `structured_output` when truthy, else the first fenced ```json block of the
  free-text `result`, else the whole `result` text parsed as JSON. Usage, cost
  and session default when absent or falsy. Every failure is an error message.
 */
module CliResponse {
  import opened Wrappers
  import opened Strings
  import opened Json

  datatype Usage = Usage(inputTokens: Json, outputTokens: Json)

  /** `ParsedResponse`: the fields keep the JSON values read (`x || 0`, `x || ''` return `x` itself when truthy). */
  datatype ParsedResponse = ParsedResponse(data: Json, usage: Usage, costUsd: Json, sessionId: Json)

  const FenceOpen: string := "```json"
  const FenceClose: string := "```"

  /**
    The capture group of `/```json\s*([\s\S]*?)```/` as a pair of indices: the
    leftmost "```json" after which a closing "```" exists; `\s*` takes the
    white space greedily and the group stops at the first "```" after it.
    (Giving white space back to the lazy group cannot create a match: a
    closing delimiter starts with a backtick, which is not white space.)
   */
  function FenceMatch(t: string, from: nat): (r: Option<(nat, nat)>)
    ensures r.Some? ==> r.value.0 <= r.value.1 && OccursAt(t, FenceClose, r.value.1)
    ensures r.Some? && r.value.0 < r.value.1 ==> !IsJsWhitespace(t[r.value.0])
    decreases |t| - from
  {
    if from + |FenceOpen| > |t| then None
    else
      var b := SkipWhitespace(t, from + |FenceOpen|);
      if OccursAt(t, FenceOpen, from) && IndexOf(t, FenceClose, b).Some? then
        Some((b, IndexOf(t, FenceClose, b).value))
      else FenceMatch(t, from + 1)
  }

  /** `jsonMatch?.[1]`, with a failed match read as the empty string (both are falsy). */
  function FencedBody(t: string): string {
    match FenceMatch(t, 0)
    case None => ""
    case Some((b, e)) => t[b..e]
  }

  /** A non-empty capture never trims to nothing: it starts with a character that is not white space. */
  lemma FencedBodyTrimNonEmpty(t: string)
    requires FencedBody(t) != ""
    ensures Trim(FencedBody(t)) != ""
  {
  }

  /** `m.type === 'result'`. */
  predicate IsResultMessage(m: Json) {
    Prop(m, "type") == Some(JStr("result"))
  }

  /**
    `data.find((m) => m.type === 'result')` from index `i`: the index of the
    first result message, None when there is none, or the TypeError that
    reading `type` of a `null` element raises before one is found.
   */
  function FindResult(items: seq<Json>, i: nat): (r: Result<Option<nat>, string>)
    requires i <= |items|
    ensures r.Success? && r.value.Some? ==>
      var k := r.value.value;
      i <= k < |items| && IsResultMessage(items[k])
      && forall j :: i <= j < k ==> !items[j].JNull? && !IsResultMessage(items[j])
    ensures r.Success? && r.value.None? ==>
      forall j :: i <= j < |items| ==> !items[j].JNull? && !IsResultMessage(items[j])
    ensures r.Failure? ==> exists j :: i <= j < |items| && items[j].JNull?
    decreases |items| - i
  {
    if i == |items| then Success(None)
    else if items[i].JNull? then Failure("Cannot read properties of null (reading 'type')")
    else if IsResultMessage(items[i]) then Success(Some(i))
    else FindResult(items, i + 1)
  }

  /** The payload of the result message, in the source's priority order. */
  function Payload(msg: Json, parse: Parser): Result<Json, string> {
    var structured := Prop(msg, "structured_output");
    var text := Prop(msg, "result");
    if TruthyOpt(structured) then Success(structured.value)
    else if TruthyOpt(text) then
      match text.value
      case JStr(s) =>
        var body := FencedBody(s);
        if body != "" then parse(Trim(body)) else parse(s)
      case _ => Failure("resultMsg.result.match is not a function")
    else Failure("No structured_output or result in response")
  }

  /**
    The usage, cost and session fields of the result message: each field's own
    value when the message carries a truthy one, else 0 (or '' for the session).
   */
  function Extras(msg: Json, data: Json): (p: ParsedResponse)
    ensures p.data == data
    ensures var u := Prop(msg, "usage");
      && (u.Some? && TruthyOpt(Prop(u.value, "input_tokens")) ==> p.usage.inputTokens == u.value.fields["input_tokens"])
      && (!(u.Some? && TruthyOpt(Prop(u.value, "input_tokens"))) ==> p.usage.inputTokens == JNum(0.0))
      && (u.Some? && TruthyOpt(Prop(u.value, "output_tokens")) ==> p.usage.outputTokens == u.value.fields["output_tokens"])
      && (!(u.Some? && TruthyOpt(Prop(u.value, "output_tokens"))) ==> p.usage.outputTokens == JNum(0.0))
    ensures TruthyOpt(Prop(msg, "total_cost_usd")) ==> p.costUsd == msg.fields["total_cost_usd"]
    ensures !TruthyOpt(Prop(msg, "total_cost_usd")) ==> p.costUsd == JNum(0.0)
    ensures TruthyOpt(Prop(msg, "session_id")) ==> p.sessionId == msg.fields["session_id"]
    ensures !TruthyOpt(Prop(msg, "session_id")) ==> p.sessionId == JStr("")
  {
    var usage := Prop(msg, "usage");
    ParsedResponse(
      data,
      Usage(OrElse(PropOpt(usage, "input_tokens"), JNum(0.0)), OrElse(PropOpt(usage, "output_tokens"), JNum(0.0))),
      OrElse(Prop(msg, "total_cost_usd"), JNum(0.0)),
      OrElse(Prop(msg, "session_id"), JStr("")))
  }

  /** `parseResponse`: the decoded response, or the message of the error it throws. */
  function ParseResponse(stdout: string, parse: Parser): (r: Result<ParsedResponse, string>)
    ensures r.Success? ==> parse(stdout).Success? && parse(stdout).value.JArr?
    ensures r.Success? ==>
      var items := parse(stdout).value.items;
      exists k :: 0 <= k < |items| && IsResultMessage(items[k]) && FindResult(items, 0) == Success(Some(k))
        && Payload(items[k], parse).Success? && r.value == Extras(items[k], Payload(items[k], parse).value)
  {
    match parse(stdout)
    case Failure(m) => Failure(m)
    case Success(v) =>
      if v.JNull? then Failure("Cannot read properties of null (reading 'find')")
      else if !v.JArr? then Failure("data.find is not a function")
      else
        match FindResult(v.items, 0)
        case Failure(m) => Failure(m)
        case Success(None) => Failure("No result message in Claude CLI response")
        case Success(Some(k)) =>
          var msg := v.items[k];
          match Payload(msg, parse)
          case Failure(m) => Failure(m)
          case Success(data) => Success(Extras(msg, data))
  }

  /** A syntax error in stdout is reported with the parser's own message. */
  lemma SyntaxErrorPreserved(stdout: string, parse: Parser)
    requires parse(stdout).Failure?
    ensures ParseResponse(stdout, parse) == Failure(parse(stdout).error)
  {
  }

  /** Valid JSON without a result message (and without nulls before one) is a decode failure with the source's message. */
  lemma NoResultMessage(stdout: string, parse: Parser, items: seq<Json>)
    requires parse(stdout) == Success(JArr(items))
    requires forall j :: 0 <= j < |items| ==> !items[j].JNull? && !IsResultMessage(items[j])
    ensures ParseResponse(stdout, parse) == Failure("No result message in Claude CLI response")
  {
    FindResultNone(items, 0);
  }

  lemma {:induction false} FindResultNone(items: seq<Json>, i: nat)
    requires i <= |items|
    requires forall j :: i <= j < |items| ==> !items[j].JNull? && !IsResultMessage(items[j])
    ensures FindResult(items, i) == Success(None)
    decreases |items| - i
  {
    if i < |items| {
      FindResultNone(items, i + 1);
    }
  }

  /** The first result message is the one decoded, whatever follows it. */
  lemma {:induction false} FindResultFirst(items: seq<Json>, k: nat)
    requires k < |items| && IsResultMessage(items[k])
    requires forall j :: 0 <= j < k ==> !items[j].JNull? && !IsResultMessage(items[j])
    ensures FindResult(items, 0) == Success(Some(k))
  {
    FindResultFrom(items, 0, k);
  }

  lemma {:induction false} FindResultFrom(items: seq<Json>, i: nat, k: nat)
    requires i <= k < |items| && IsResultMessage(items[k])
    requires forall j :: i <= j < k ==> !items[j].JNull? && !IsResultMessage(items[j])
    ensures FindResult(items, i) == Success(Some(k))
    decreases k - i
  {
    if i < k {
      FindResultFrom(items, i + 1, k);
    }
  }

  /**
    A JSON array whose first result message comes before any `null` is decoded
    from that message alone: its payload, with the usage, cost and session it
    carries, or the payload's error.
   */
  lemma DecodesFirstResultMessage(stdout: string, parse: Parser, items: seq<Json>, k: nat)
    requires parse(stdout) == Success(JArr(items))
    requires k < |items| && IsResultMessage(items[k])
    requires forall j :: 0 <= j < k ==> !items[j].JNull? && !IsResultMessage(items[j])
    ensures Payload(items[k], parse).Success? ==>
      ParseResponse(stdout, parse) == Success(Extras(items[k], Payload(items[k], parse).value))
    ensures Payload(items[k], parse).Failure? ==>
      ParseResponse(stdout, parse) == Failure(Payload(items[k], parse).error)
  {
    FindResultFirst(items, k);
  }

  /** A result message without usage, cost or session decodes with zero tokens, zero cost and an empty session. */
  lemma BareMessageDefaults(msg: Json, data: Json)
    requires msg.JObj? && "usage" !in msg.fields && "total_cost_usd" !in msg.fields && "session_id" !in msg.fields
    ensures Extras(msg, data) == ParsedResponse(data, Usage(JNum(0.0), JNum(0.0)), JNum(0.0), JStr(""))
  {
  }

  /** A truthy `structured_output` is the payload as it is, whatever `result` holds. */
  lemma StructuredOutputFirst(msg: Json, parse: Parser)
    requires TruthyOpt(Prop(msg, "structured_output"))
    ensures Payload(msg, parse) == Success(Prop(msg, "structured_output").value)
  {
  }

  /** Without a fenced block the whole `result` text is parsed. */
  lemma WholeResultParsed(msg: Json, s: string, parse: Parser)
    requires !TruthyOpt(Prop(msg, "structured_output"))
    requires Prop(msg, "result") == Some(JStr(s)) && s != ""
    requires FenceMatch(s, 0).None?
    ensures Payload(msg, parse) == parse(s)
  {
  }

  /**
    Decoding a result whose text carries the object in a fenced ```json block
    gives the same response as carrying that object in `structured_output`.
   */
  lemma FenceAgreesWithStructuredOutput(fields: map<string, Json>, text: string, v: Json, parse: Parser)
    requires "structured_output" !in fields && "result" !in fields && "type" !in fields
    requires FencedBody(text) != "" && parse(Trim(FencedBody(text))) == Success(v) && Truthy(v)
    ensures
      var withText := JObj(fields["type" := JStr("result")]["result" := JStr(text)]);
      var withObject := JObj(fields["type" := JStr("result")]["structured_output" := v]);
      Payload(withText, parse) == Payload(withObject, parse)
      && Extras(withText, v) == Extras(withObject, v)
  {
    var withText := JObj(fields["type" := JStr("result")]["result" := JStr(text)]);
    assert Prop(withText, "structured_output").None?;
    assert text != "";
  }

  lemma {:induction false} NoOpenBefore(t: string, from: nat, stop: nat)
    requires from <= stop <= |t|
    requires forall j :: from <= j < stop ==> t[j] != '`'
    requires stop + |FenceOpen| <= |t|
    ensures FenceMatch(t, from) == FenceMatch(t, stop)
    decreases stop - from
  {
    if from < stop {
      assert !OccursAt(t, FenceOpen, from) by {
        assert t[from..from + |FenceOpen|][0] == t[from];
      }
      NoOpenBefore(t, from + 1, stop);
    }
  }

  lemma {:induction false} NoCloseBefore(t: string, from: nat, stop: nat)
    requires from <= stop <= |t|
    requires forall j :: from <= j < stop ==> t[j] != '`'
    ensures IndexOf(t, FenceClose, from) == IndexOf(t, FenceClose, stop)
    decreases stop - from
  {
    if from < stop {
      assert from + |FenceClose| <= |t| ==> t[from..from + |FenceClose|][0] == t[from];
      NoCloseBefore(t, from + 1, stop);
    }
  }

  /** The fence search over a text laid out as the regular expression expects, stated by positions. */
  lemma FencedBodyAt(t: string, o: nat, b: nat, e: nat)
    requires o + |FenceOpen| <= b <= e && e + |FenceClose| <= |t|
    requires forall j :: 0 <= j < o ==> t[j] != '`'
    requires t[o..o + |FenceOpen|] == FenceOpen
    requires forall j :: o + |FenceOpen| <= j < b ==> IsJsWhitespace(t[j])
    requires !IsJsWhitespace(t[b])
    requires forall j :: b <= j < e ==> t[j] != '`'
    requires t[e..e + |FenceClose|] == FenceClose
    ensures FencedBody(t) == t[b..e]
  {
    NoOpenBefore(t, 0, o);
    SkipAll(t, o + |FenceOpen|, b);
    NoCloseBefore(t, b, e);
    assert IndexOf(t, FenceClose, e) == Some(e);
  }

  /**
    The fence search finds the block a writer produces: leading text without
    backticks, "```json", white space, a body without backticks that does not
    start with white space, and "```".
   */
  lemma FencedBodyOfBlock(pre: string, ws: string, body: string, post: string)
    requires forall j :: 0 <= j < |pre| ==> pre[j] != '`'
    requires forall j :: 0 <= j < |ws| ==> IsJsWhitespace(ws[j])
    requires forall j :: 0 <= j < |body| ==> body[j] != '`'
    requires body != [] ==> !IsJsWhitespace(body[0])
    ensures FencedBody(pre + FenceOpen + ws + body + FenceClose + post) == body
  {
    var head := pre + FenceOpen + ws;
    var tail := body + FenceClose + post;
    OpeningPart(pre, ws);
    ClosingPart(body, post);
    assert pre + FenceOpen + ws + body + FenceClose + post == head + tail;
    Glued(head, tail, |pre|, |body|);
  }

  /** The block once its opening part and its closing part are joined. */
  lemma Glued(head: string, tail: string, o: nat, n: nat)
    requires o + |FenceOpen| <= |head| && n + |FenceClose| <= |tail|
    requires forall j :: 0 <= j < o ==> head[j] != '`'
    requires head[o..o + |FenceOpen|] == FenceOpen
    requires forall j :: o + |FenceOpen| <= j < |head| ==> IsJsWhitespace(head[j])
    requires !IsJsWhitespace(tail[0])
    requires forall j :: 0 <= j < n ==> tail[j] != '`'
    requires tail[n..n + |FenceClose|] == FenceClose
    ensures FencedBody(head + tail) == tail[..n]
  {
    var t := head + tail;
    var b := |head|;
    assert t[o..o + |FenceOpen|] == head[o..o + |FenceOpen|] by {
      assert forall k :: o <= k < o + |FenceOpen| ==> t[k] == head[k];
    }
    assert t[b + n..b + n + |FenceClose|] == tail[n..n + |FenceClose|] by {
      assert forall k :: b + n <= k < b + n + |FenceClose| ==> t[k] == tail[k - b];
    }
    assert t[b..b + n] == tail[..n] by {
      assert forall k :: b <= k < b + n ==> t[k] == tail[k - b];
    }
    FencedBodyAt(t, o, b, b + n);
  }

  lemma OpeningPart(pre: string, ws: string)
    requires forall j :: 0 <= j < |pre| ==> pre[j] != '`'
    requires forall j :: 0 <= j < |ws| ==> IsJsWhitespace(ws[j])
    ensures var head := pre + FenceOpen + ws;
      && |head| == |pre| + |FenceOpen| + |ws|
      && (forall j :: 0 <= j < |pre| ==> head[j] != '`')
      && head[|pre|..|pre| + |FenceOpen|] == FenceOpen
      && (forall j :: |pre| + |FenceOpen| <= j < |head| ==> IsJsWhitespace(head[j]))
  {
    var head := pre + FenceOpen + ws;
    assert forall j :: |pre| + |FenceOpen| <= j < |head| ==> head[j] == ws[j - |pre| - |FenceOpen|];
  }

  lemma ClosingPart(body: string, post: string)
    requires forall j :: 0 <= j < |body| ==> body[j] != '`'
    requires body != [] ==> !IsJsWhitespace(body[0])
    ensures var tail := body + FenceClose + post;
      && |tail| >= |body| + |FenceClose|
      && (forall j :: 0 <= j < |body| ==> tail[j] != '`')
      && tail[|body|..|body| + |FenceClose|] == FenceClose
      && !IsJsWhitespace(tail[0])
      && tail[..|body|] == body
  {
    var tail := body + FenceClose + post;
    if body == [] {
      assert tail[0] == '`';
    }
  }

  lemma {:induction false} SkipAll(t: string, from: nat, stop: nat)
    requires from <= stop < |t|
    requires forall j :: from <= j < stop ==> IsJsWhitespace(t[j])
    requires !IsJsWhitespace(t[stop])
    ensures SkipWhitespace(t, from) == stop
    decreases stop - from
  {
    if from < stop {
      SkipAll(t, from + 1, stop);
    }
  }
}
