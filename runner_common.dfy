/** What the runner adapters (the files under src/runners) share: the update a parsed
    output line yields, prompt redaction of a recorded command line, and the
    text carried by a list of content blocks. */
module RunnerCommon {
  import opened Wrappers
  import opened Strings
  import opened Json
  import opened TokenMeter

  /** The fields a `parseLine` result may carry; None stands for an absent field. */
  datatype LineUpdate = LineUpdate(
    sessionId: Option<string>,
    model: Option<string>,
    updateText: Option<string>,
    assistantDelta: Option<string>,
    finalResult: Option<string>,
    blockedReason: Option<string>,
    usage: Option<Usage>)

  /** An update that only carries a progress text. */
  function TextUpdate(text: string): (u: LineUpdate)
    ensures u.updateText == Some(text) && u.assistantDelta.None? && u.blockedReason.None?
  {
    LineUpdate(None, None, Some(text), None, None, None, None)
  }

  /** A configured output format, 'stream-json' when unset: never empty, and
      the configured one whenever one is set. */
  function OutputFormat(configured: string): (f: string)
    ensures f != ""
    ensures configured != "" ==> f == configured
  {
    if configured != "" then configured else "stream-json"
  }

  /** A prepared subprocess invocation: the program, its arguments, and the
      arguments as recorded in the database with the prompt hidden. */
  datatype RunCommand = RunCommand(command: string, args: seq<string>, redactedArgs: seq<string>)

  const PromptPlaceholder: string := "<prompt>"

  /** `args.map((a) => (a === prompt ? '<prompt>' : a))`. */
  function Redact(args: seq<string>, prompt: string): (r: seq<string>)
    ensures |r| == |args|
    ensures forall i :: 0 <= i < |args| ==> (r[i] == PromptPlaceholder <==> args[i] == prompt || args[i] == PromptPlaceholder)
    ensures forall i :: 0 <= i < |args| && args[i] != prompt ==> r[i] == args[i]
  {
    seq(|args|, i requires 0 <= i < |args| => if args[i] == prompt then PromptPlaceholder else args[i])
  }

  /** The recorded arguments never contain the prompt (unless the prompt is the placeholder itself). */
  lemma RedactHidesPrompt(args: seq<string>, prompt: string)
    requires prompt != PromptPlaceholder
    ensures prompt !in Redact(args, prompt)
  {
    var r := Redact(args, prompt);
    forall i | 0 <= i < |r| ensures r[i] != prompt {
      assert r[i] == (if args[i] == prompt then PromptPlaceholder else args[i]);
    }
  }

  /** The text of a `{type: 'text', text: string}` block. */
  function BlockText(b: Json): Option<string>
  {
    if Get(b, "type") == Some(JStr("text")) && Get(b, "text").Some? && Get(b, "text").value.JStr?
    then Some(Get(b, "text").value.s)
    else None
  }

  /** The texts of the text blocks, in order. */
  function TextParts(blocks: seq<Json>): (parts: seq<string>)
    ensures |parts| <= |blocks|
  {
    if blocks == [] then []
    else
      var init := blocks[..|blocks| - 1];
      var b := blocks[|blocks| - 1];
      TextParts(init) + (if BlockText(b).Some? then [BlockText(b).value] else [])
  }

  /** Exactly the text blocks contribute, each with its own text. */
  lemma {:induction false} TextPartsMembers(blocks: seq<Json>)
    ensures forall b :: b in blocks && BlockText(b).Some? ==> BlockText(b).value in TextParts(blocks)
    ensures forall p :: p in TextParts(blocks) ==> exists b :: b in blocks && BlockText(b) == Some(p)
  {
    if blocks != [] {
      var init := blocks[..|blocks| - 1];
      assert blocks == init + [blocks[|blocks| - 1]];
      TextPartsMembers(init);
    }
  }

  /** The text `extractTextFromContentBlocks` returns: the text blocks joined by
      newlines, '' when the value is not an array. */
  function ContentText(blocks: Option<Json>): string
  {
    if blocks.Some? && blocks.value.JArr? then Join(TextParts(blocks.value.items), "\n") else ""
  }

  /** `extractTextFromContentBlocks`. */
  method ExtractTextFromContentBlocks(blocks: Option<Json>) returns (text: string)
    ensures text == ContentText(blocks)
  {
    if !(blocks.Some? && blocks.value.JArr?) {
      return "";
    }
    var items := blocks.value.items;
    var parts: seq<string> := [];
    var i := 0;
    while i < |items|
      invariant 0 <= i <= |items|
      invariant parts == TextParts(items[..i])
    {
      var b := items[i];
      assert items[..i + 1][..i] == items[..i];
      if Get(b, "type") == Some(JStr("text")) && Get(b, "text").Some? && Get(b, "text").value.JStr? {
        parts := parts + [Get(b, "text").value.s];
      }
      i := i + 1;
    }
    assert items[..|items|] == items;
    text := Join(parts, "\n");
  }

  /** "assistant: " and the first 160 characters of a non-blank reply text, and
      the text with a final newline as the assistant delta. */
  function AssistantUpdate(text: string, usage: Option<Usage>): (u: LineUpdate)
    requires text != []
    ensures u.assistantDelta == Some(text + "\n")
    ensures u.updateText.Some? && StartsWith(u.updateText.value, "assistant: ") && |u.updateText.value| <= 11 + 160
    ensures u.updateText == Some("assistant: " + Prefix(text, 160))
    ensures u.usage == usage && u.finalResult.None? && u.blockedReason.None? && u.sessionId.None? && u.model.None?
  {
    var shown := Prefix(text, 160);
    assert StartsWith("assistant: " + shown, "assistant: ");
    LineUpdate(None, None, Some("assistant: " + shown), Some(text + "\n"), None, None, usage)
  }

  /** `result:${obj.subtype || 'done'}`, the progress text of a result event. */
  function ResultLabel(o: Json): (text: string)
    ensures StartsWith(text, "result:")
    ensures !Truthy(Get(o, "subtype")) ==> text == "result:done"
    ensures Get(o, "subtype").Some? && Get(o, "subtype").value.JStr? && Get(o, "subtype").value.s != []
            ==> text == "result:" + Get(o, "subtype").value.s
  {
    var subtype := if Truthy(Get(o, "subtype")) then TextOf(Get(o, "subtype")) else "";
    if subtype != "" then
      ConcatParts("result:", subtype, "");
      "result:" + subtype
    else
      assert "result:done"[..7] == "result:";
      "result:done"
  }

  /** `typeof obj.result === 'string' ? obj.result.trim() : ''`, with '' read as null. */
  function ResultText(o: Json): (r: Option<string>)
    ensures r.None? || Tidy(r.value)
    ensures r.Some? <==> Get(o, "result").Some? && Get(o, "result").value.JStr? && !IsBlank(Get(o, "result").value.s)
    ensures r.Some? ==> r.value == Trim(Get(o, "result").value.s)
  {
    var resultText := Trim(StringOrEmpty(Get(o, "result")));
    TrimIdempotent(StringOrEmpty(Get(o, "result")));
    if resultText != "" then Some(resultText) else None
  }

  /** The final `result` event of the claude and cursor streams: "result:" and
      the subtype (default 'done'), the trimmed result text or nothing. */
  function ResultUpdate(o: Json, usage: Option<Usage>): (u: LineUpdate)
    ensures u.finalResult.None? || Tidy(u.finalResult.value)
    ensures u.updateText.Some? && StartsWith(u.updateText.value, "result:")
    ensures u.finalResult.Some? <==> Get(o, "result").Some? && Get(o, "result").value.JStr? && !IsBlank(Get(o, "result").value.s)
    ensures u.finalResult.Some? ==> u.finalResult.value == Trim(Get(o, "result").value.s)
    ensures !Truthy(Get(o, "subtype")) ==> u.updateText == Some("result:done")
    ensures Get(o, "subtype").Some? && Get(o, "subtype").value.JStr? && Get(o, "subtype").value.s != []
            ==> u.updateText == Some("result:" + Get(o, "subtype").value.s)
    ensures u.usage == usage && u.assistantDelta.None? && u.blockedReason.None? && u.sessionId.None? && u.model.None?
  {
    LineUpdate(None, None, Some(ResultLabel(o)), None, ResultText(o), None, usage)
  }

  /** `p.split('/').pop()`. */
  function LastSegment(p: string): (r: string)
    ensures '/' !in r
    ensures EndsWith(p, r)
    ensures '/' in p ==> |r| < |p| && p[|p| - |r| - 1] == '/'
  {
    var parts := Split(p, '/');
    SplitLastSuffix(p, '/');
    parts[|parts| - 1]
  }
}
