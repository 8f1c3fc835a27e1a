/** Token accounting: integer coercion, character-based token estimates,
    provider-usage normalisation and merging, and compaction of the planner's
    context when it would exceed its token budget (src/services/token-meter.js). */
module TokenMeter {
  import opened Wrappers
  import opened Strings
  import opened Json

  datatype Source = Provider | Estimated

  datatype Usage = Usage(inputTokens: nat, outputTokens: nat, totalTokens: nat, source: Source)

  /** One chat message of the planner context: `role` '' stands for a missing role. */
  datatype Message = Message(role: string, content: string)

  /** `toInt`: 0 for a non-finite or negative number, else its floor. */
  function ToInt(v: Numeric): (n: nat)
    ensures v.NotFinite? || v.r < 0.0 ==> n == 0
    ensures v.Finite? && v.r >= 0.0 ==> n as real <= v.r < n as real + 1.0
  {
    if v.NotFinite? || v.r < 0.0 then 0 else v.r.Floor
  }

  /** `charsToTokens`: the number of 4-character blocks needed, 0 for no characters. */
  function CharsToTokens(count: int): (t: nat)
    ensures count <= 0 ==> t == 0
    ensures count > 0 ==> 4 * (t - 1) < count <= 4 * t
  {
    if count <= 0 then 0 else (count + 3) / 4
  }

  /** `estimateTokensFromText`. */
  function EstimateTokensFromText(text: string): (t: nat)
    ensures text == [] <==> t == 0
    ensures 4 * t - 3 <= |text| <= 4 * t
  {
    CharsToTokens(|text|)
  }

  /** `pick(raw, [outer, inner])`: `raw[outer][inner]` when `raw[outer]` is an object, else nullish. */
  function Pick(raw: Json, outer: string, inner: string): (r: Option<Json>)
    ensures !IsObjectValue(Get(raw, outer)) ==> IsNullish(r)
  {
    var o := Get(raw, outer);
    if IsObjectValue(o) then Get(o.value, inner) else None
  }

  function InputCount(raw: Json): nat
  {
    ToInt(ToNumber(Coalesce([
      Get(raw, "inputTokens"), Get(raw, "input_tokens"), Get(raw, "promptTokens"), Get(raw, "prompt_tokens"),
      Pick(raw, "usage", "input_tokens"), Pick(raw, "usage", "prompt_tokens"),
      Pick(raw, "usageMetadata", "promptTokenCount"), Pick(raw, "usageMetadata", "inputTokenCount")])))
  }

  function OutputCount(raw: Json): nat
  {
    ToInt(ToNumber(Coalesce([
      Get(raw, "outputTokens"), Get(raw, "output_tokens"), Get(raw, "completionTokens"), Get(raw, "completion_tokens"),
      Get(raw, "candidatesTokens"),
      Pick(raw, "usage", "output_tokens"), Pick(raw, "usage", "completion_tokens"),
      Pick(raw, "usageMetadata", "candidatesTokenCount"), Pick(raw, "usageMetadata", "outputTokenCount")])))
  }

  /** The reported total, falling back to input + output when no total field is present. */
  function TotalCount(raw: Json): nat
  {
    var c := Coalesce([
      Get(raw, "totalTokens"), Get(raw, "total_tokens"),
      Pick(raw, "usage", "total_tokens"), Pick(raw, "usageMetadata", "totalTokenCount")]);
    if c.Some? then ToInt(ToNumber(c)) else InputCount(raw) + OutputCount(raw)
  }

  /** `normalizeTokenUsage(raw, source)`. */
  function NormalizeTokenUsage(raw: Json, source: string): (u: Option<Usage>)
    ensures u.Some? <==> IsObject(raw) && (InputCount(raw) > 0 || OutputCount(raw) > 0 || TotalCount(raw) > 0)
    ensures u.Some? ==> u.value.totalTokens > 0
    ensures u.Some? ==> u.value.inputTokens == InputCount(raw) && u.value.outputTokens == OutputCount(raw)
    ensures u.Some? && TotalCount(raw) > 0 ==> u.value.totalTokens == TotalCount(raw)
    ensures u.Some? ==> (u.value.source == Estimated <==> source == "estimated")
  {
    if !IsObject(raw) then None
    else
      var input := InputCount(raw);
      var output := OutputCount(raw);
      var total := TotalCount(raw);
      if input <= 0 && output <= 0 && total <= 0 then None
      else Some(Usage(input, output, if total > 0 then total else input + output,
                      if source == "estimated" then Estimated else Provider))
  }

  /** A usage record as the object the JavaScript code passes around. */
  function UsageJson(u: Usage): Json
  {
    JObj([("inputTokens", JNum(u.inputTokens)), ("outputTokens", JNum(u.outputTokens)),
          ("totalTokens", JNum(u.totalTokens)),
          ("source", JStr(if u.source == Provider then "provider" else "estimated"))])
  }

  lemma UsageJsonFields(u: Usage)
    ensures Get(UsageJson(u), "inputTokens") == Some(JNum(u.inputTokens))
    ensures Get(UsageJson(u), "outputTokens") == Some(JNum(u.outputTokens))
    ensures Get(UsageJson(u), "totalTokens") == Some(JNum(u.totalTokens))
  {
    var f := UsageJson(u).fields;
    var f3, f2, f1 := f[..3], f[..2], f[..1];
    assert f3[..2] == f2 && f2[..1] == f1;
    assert f[3].0 == "source" && f3[2].0 == "totalTokens" && f2[1].0 == "outputTokens" && f1[0].0 == "inputTokens";
    assert "source" != "totalTokens" && "source" != "outputTokens" && "source" != "inputTokens" by {
      assert |"source"| == 6;
    }
    assert "totalTokens"[0] != "inputTokens"[0] && "totalTokens"[0] != "outputTokens"[0];
    assert "outputTokens" != "inputTokens" by { assert |"outputTokens"| != |"inputTokens"|; }
    assert Lookup(f, "totalTokens") == Lookup(f3, "totalTokens") == Some(JNum(u.totalTokens));
    assert Lookup(f, "outputTokens") == Lookup(f3, "outputTokens") == Lookup(f2, "outputTokens");
    assert Lookup(f, "inputTokens") == Lookup(f3, "inputTokens") == Lookup(f2, "inputTokens") == Lookup(f1, "inputTokens");
  }

  lemma CountOfNumber(n: nat)
    ensures ToInt(ToNumber(Some(JNum(n)))) == n
  {
    assert (n as real).Floor == n;
  }

  /** Normalising an already-normalised usage keeps its counts and marks it 'provider'. */
  lemma RenormalizeUsage(u: Usage)
    requires u.totalTokens > 0
    ensures NormalizeTokenUsage(UsageJson(u), "provider") == Some(u.(source := Provider))
  {
    var raw := UsageJson(u);
    UsageJsonFields(u);
    CountOfNumber(u.inputTokens);
    CountOfNumber(u.outputTokens);
    CountOfNumber(u.totalTokens);
    assert InputCount(raw) == u.inputTokens;
    assert OutputCount(raw) == u.outputTokens;
    assert TotalCount(raw) == u.totalTokens;
  }

  /** `mergeTokenUsage`: the side with the larger total wins (ties go right);
      the result is 'provider' when either side is. */
  function MergeTokenUsage(left: Option<Usage>, right: Option<Usage>): (m: Option<Usage>)
    ensures left.None? ==> m == right
    ensures left.Some? && right.None? ==> m == left
    ensures left.Some? && right.Some? ==> m.Some?
    ensures left.Some? && right.Some? && right.value.totalTokens >= left.value.totalTokens ==>
      (m.value.inputTokens, m.value.outputTokens, m.value.totalTokens)
        == (right.value.inputTokens, right.value.outputTokens, right.value.totalTokens)
    ensures left.Some? && right.Some? && right.value.totalTokens < left.value.totalTokens ==>
      (m.value.inputTokens, m.value.outputTokens, m.value.totalTokens)
        == (left.value.inputTokens, left.value.outputTokens, left.value.totalTokens)
    ensures left.Some? && right.Some? ==>
      (m.value.source == Provider <==> left.value.source == Provider || right.value.source == Provider)
  {
    if left.None? then right
    else if right.None? then left
    else
      var chosen := if right.value.totalTokens >= left.value.totalTokens then right.value else left.value;
      Some(Usage(chosen.inputTokens, chosen.outputTokens, chosen.totalTokens,
        if chosen.source == Provider || left.value.source == Provider || right.value.source == Provider
        then Provider else Estimated))
  }

  /** Merging keeps the larger total and never loses a 'provider' source. */
  lemma MergeKeepsMaximum(left: Option<Usage>, right: Option<Usage>)
    requires left.Some? || right.Some?
    ensures var m := MergeTokenUsage(left, right);
      m.Some?
      && (left.Some? ==> m.value.totalTokens >= left.value.totalTokens)
      && (right.Some? ==> m.value.totalTokens >= right.value.totalTokens)
      && (left.Some? && left.value.source == Provider ==> m.value.source == Provider)
      && (right.Some? && right.value.source == Provider ==> m.value.source == Provider)
  {
  }

  /** `estimateUsage`. */
  function EstimateUsage(inputText: string, outputText: string): (u: Usage)
    ensures u.totalTokens == u.inputTokens + u.outputTokens
    ensures u.source == Estimated
    ensures u.inputTokens == EstimateTokensFromText(inputText)
    ensures u.outputTokens == EstimateTokensFromText(outputText)
  {
    var i := EstimateTokensFromText(inputText);
    var o := EstimateTokensFromText(outputText);
    Usage(i, o, i + o, Estimated)
  }

  /** `compactMessageContent`: the trimmed text, cut to `maxChars` characters plus "..." when longer. */
  function CompactMessageContent(content: string, maxChars: nat): (r: string)
    ensures |Trim(content)| <= maxChars ==> r == Trim(content)
    ensures |Trim(content)| > maxChars ==>
      |r| == maxChars + 3 && r[..maxChars] == Trim(content)[..maxChars] && r[maxChars..] == "..."
    ensures |r| <= maxChars + 3
  {
    var txt := Trim(content);
    if |txt| <= maxChars then txt else txt[..maxChars] + "..."
  }

  /** `x || d` followed by `Math.max(lo, ...)` for a numeric setting where 0 means unset. */
  function AtLeastOr(x: int, d: int, lo: int): (r: int)
    ensures r >= lo
    ensures x != 0 && x >= lo ==> r == x
    ensures x == 0 && d >= lo ==> r == d
  {
    var v := if x == 0 then d else x;
    if v < lo then lo else v
  }

  datatype CompactionMeta = CompactionMeta(
    droppedMessages: nat, originalMessageCount: nat, finalMessageCount: nat,
    memoryTrimmed: bool, perMsgCharCap: nat, memCharCap: nat)

  datatype Compacted = Compacted(contextMessages: seq<Message>, sharedMemory: string, meta: CompactionMeta)

  /** The per-message character cap: the per-call budget in characters shared by the kept messages plus two. */
  function PerMessageCharCap(budget: nat, maxMsgs: nat): (cap: nat)
    ensures cap >= 220
  {
    var q := (budget * 4) / (if maxMsgs + 2 < 2 then 2 else maxMsgs + 2);
    if q < 220 then 220 else q
  }

  function CompactAll(msgs: seq<Message>, cap: nat): (r: seq<Message>)
    ensures |r| == |msgs|
    ensures forall i :: 0 <= i < |msgs| ==>
      r[i].role == (if msgs[i].role == [] then "user" else msgs[i].role)
      && r[i].content == CompactMessageContent(msgs[i].content, cap)
  {
    seq(|msgs|, i requires 0 <= i < |msgs| =>
      Message(if msgs[i].role == [] then "user" else msgs[i].role, CompactMessageContent(msgs[i].content, cap)))
  }

  /** The non-empty 120-character snippets of the dropped messages, in order. */
  function Snippets(msgs: seq<Message>): (r: seq<string>)
    ensures |r| <= |msgs|
    ensures forall i :: 0 <= i < |r| ==> r[i] != [] && |r[i]| <= 123
  {
    if msgs == [] then []
    else
      var c := CompactMessageContent(msgs[0].content, 120);
      var rest := Snippets(msgs[1..]);
      if c == [] then rest
      else
        SnippetConsBounded(c, rest);
        [c] + rest
  }

  /** Putting a bounded snippet in front of bounded snippets keeps them bounded. */
  lemma SnippetConsBounded(c: string, rest: seq<string>)
    requires c != [] && |c| <= 123
    requires forall i :: 0 <= i < |rest| ==> rest[i] != [] && |rest[i]| <= 123
    ensures forall i :: 0 <= i < |[c] + rest| ==> ([c] + rest)[i] != [] && |([c] + rest)[i]| <= 123
  {
    forall i | 0 <= i < |[c] + rest| ensures ([c] + rest)[i] != [] && |([c] + rest)[i]| <= 123 {
      if i > 0 {
        assert ([c] + rest)[i] == rest[i - 1];
      }
    }
  }

  /** The snippets that go into the summary line: the last eight at most. */
  function SummarySnippets(dropped: seq<Message>): (r: seq<string>)
    ensures var all := Snippets(dropped); |r| == (if |all| < 8 then |all| else 8) && r == all[|all| - |r|..]
  {
    var all := Snippets(dropped);
    all[if |all| > 8 then |all| - 8 else 0..]
  }

  /** Each summary snippet is non-empty and at most 120 characters plus "...". */
  lemma SummarySnippetsBounded(dropped: seq<Message>)
    ensures var r := SummarySnippets(dropped); |r| <= 8 && forall i :: 0 <= i < |r| ==> r[i] != [] && |r[i]| <= 123
  {
    var all := Snippets(dropped);
    var k := if |all| > 8 then |all| - 8 else 0;
    assert SummarySnippets(dropped) == all[k..];
    SnippetSuffixBounded(all, k);
  }

  /** A suffix of bounded snippets is bounded. */
  lemma SnippetSuffixBounded(all: seq<string>, k: nat)
    requires k <= |all|
    requires forall i :: 0 <= i < |all| ==> all[i] != [] && |all[i]| <= 123
    ensures forall i :: 0 <= i < |all[k..]| ==> all[k..][i] != [] && |all[k..][i]| <= 123
  {
    forall i | 0 <= i < |all[k..]| ensures all[k..][i] != [] && |all[k..][i]| <= 123 {
      assert all[k..][i] == all[k + i];
    }
  }

  function SummaryText(dropped: nat, snippets: seq<string>): string
  {
    if snippets == [] then "Resumo: " + NatToString(dropped) + " mensagens anteriores foram compactadas."
    else "Resumo de " + NatToString(dropped) + " mensagens anteriores: " + Join(snippets, " | ")
  }

  /** The compacted message list: the last `maxMsgs` messages, each compacted,
      after one 'system' summary line when some messages were dropped. */
  function CompactContext(msgs: seq<Message>, maxMsgs: nat, cap: nat): (r: seq<Message>)
    ensures var kept := if maxMsgs < |msgs| then maxMsgs else |msgs|;
      var dropped := |msgs| - kept;
      |r| == kept + (if dropped > 0 then 1 else 0)
      && r[|r| - kept..] == CompactAll(msgs[dropped..], cap)
      && (dropped > 0 ==> r[0].role == "system")
  {
    var dropped := if maxMsgs < |msgs| then |msgs| - maxMsgs else 0;
    var kept := CompactAll(msgs[dropped..], cap);
    if dropped > 0 then
      [Message("system", CompactMessageContent(SummaryText(dropped, SummarySnippets(msgs[..dropped])), cap))] + kept
    else kept
  }

  /** The trimmed shared memory, cut to `cap` characters plus "..." when longer. */
  function CompactMemory(memory: string, cap: nat): (r: string)
    ensures |Trim(memory)| <= cap ==> r == Trim(memory)
    ensures |Trim(memory)| > cap ==> r == Trim(memory)[..cap] + "..." && |r| == cap + 3
  {
    var memText := Trim(memory);
    if |memText| > cap then memText[..cap] + "..." else memText
  }

  /** `compactPlannerPayload`. Settings equal to 0 stand for unset ones. */
  function CompactPlannerPayload(contextMessages: seq<Message>, sharedMemory: string,
                                 plannerMaxContextMessages: int, tokenBudgetPlannerPerCall: int,
                                 tokenBudgetSharedMemoryMax: int): (c: Compacted)
    ensures var maxMsgs := AtLeastOr(plannerMaxContextMessages, 12, 2);
      var kept := if maxMsgs < |contextMessages| then maxMsgs else |contextMessages|;
      c.meta.droppedMessages == |contextMessages| - kept
      && c.meta.originalMessageCount == |contextMessages|
      && c.meta.finalMessageCount == |c.contextMessages|
      && c.meta.perMsgCharCap >= 220
      && c.meta.memCharCap == 4 * AtLeastOr(tokenBudgetSharedMemoryMax, 3000, 200)
      && c.contextMessages == CompactContext(contextMessages, maxMsgs, c.meta.perMsgCharCap)
      && c.sharedMemory == CompactMemory(sharedMemory, c.meta.memCharCap)
      && (c.meta.memoryTrimmed <==> c.sharedMemory != Trim(sharedMemory))
  {
    var maxMsgs := AtLeastOr(plannerMaxContextMessages, 12, 2);
    var budget := AtLeastOr(tokenBudgetPlannerPerCall, 12000, 200);
    var memMax := AtLeastOr(tokenBudgetSharedMemoryMax, 3000, 200);
    var memCharCap := memMax * 4;
    var perMsgCharCap := PerMessageCharCap(budget, maxMsgs);
    var dropped := if maxMsgs < |contextMessages| then |contextMessages| - maxMsgs else 0;
    var msgs := CompactContext(contextMessages, maxMsgs, perMsgCharCap);
    var memory := CompactMemory(sharedMemory, memCharCap);
    Compacted(msgs, memory,
      CompactionMeta(dropped, |contextMessages|, |msgs|,
                     memory != Trim(sharedMemory), perMsgCharCap, memCharCap))
  }

  /** The kept messages are the newest ones in order, and exactly one summary
      line is added when any message was dropped. */
  lemma CompactionKeepsNewest(contextMessages: seq<Message>, sharedMemory: string,
                              maxMessages: int, budget: int, memoryMax: int)
    ensures var c := CompactPlannerPayload(contextMessages, sharedMemory, maxMessages, budget, memoryMax);
      var kept := |contextMessages| - c.meta.droppedMessages;
      (kept >= 2 || kept == |contextMessages|)
      && c.meta.finalMessageCount == kept + (if c.meta.droppedMessages > 0 then 1 else 0)
      && c.contextMessages[c.meta.finalMessageCount - kept..]
           == CompactAll(contextMessages[c.meta.droppedMessages..], c.meta.perMsgCharCap)
      && (c.meta.droppedMessages > 0 ==> c.contextMessages[0].role == "system")
      && (c.meta.droppedMessages == 0 ==> |c.contextMessages| == |contextMessages|)
  {
  }

  /** `formatTokenSummaryLine`: a missing usage prints as zeros. */
  function FormatTokenSummaryLine(name: string, usage: Option<Usage>): (line: string)
    ensures usage.None? ==> line == name + ": in 0 | out 0 | total 0"
    ensures usage.Some? ==>
      line == name + ": in " + NatToString(usage.value.inputTokens)
              + " | out " + NatToString(usage.value.outputTokens)
              + " | total " + NatToString(usage.value.totalTokens)
  {
    var u := usage.GetOr(Usage(0, 0, 0, Estimated));
    name + ": in " + NatToString(ToInt(Finite(u.inputTokens as real)))
      + " | out " + NatToString(ToInt(Finite(u.outputTokens as real)))
      + " | total " + NatToString(ToInt(Finite(u.totalTokens as real)))
  }
}
