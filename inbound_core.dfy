/** The inbound core (src/services/inbound-core.js): the parsers for actor
    ids, command arguments, task prefixes and selection replies; the runner
    chosen for a user and for a task; where a user's message is routed; and
    the admission of an inbound message (authorisation, the Discord channel
    gate and duplicate delivery). Replies, the orchestrator and the
    execution queue are outside the model: a routing step returns the
    outcome the source acts on. */
module InboundCore {
  import opened Wrappers
  import opened Strings
  import Paths
  import Runners
  import Messenger
  import Discord
  import Orchestrator
  import TaskStore

  // ---------------------------------------------------------------- actor ids

  /** `extractPhone(jid)`: the text before the first '@', then before the
      first ':'; None for an empty id or an empty result. */
  function ExtractPhone(jid: string): (r: Option<string>)
    ensures r.Some? ==> r.value != [] && '@' !in r.value && ':' !in r.value
    ensures r.Some? ==> StartsWith(jid, r.value)
    ensures jid != [] && '@' !in jid && ':' !in jid ==> r == Some(jid)
  {
    if jid == [] then None
    else
      var left := Paths.BeforeFirst(jid, '@');
      var phone := Paths.BeforeFirst(left, ':');
      assert forall i :: 0 <= i < |phone| ==> phone[i] == left[i] == jid[i];
      if phone == [] then None else Some(phone)
  }

  /** The phone of a WhatsApp JID, with or without a device suffix. */
  lemma ExtractPhoneOfJid(phone: string, device: string, server: string)
    requires phone != [] && '@' !in phone && ':' !in phone && '@' !in device
    ensures ExtractPhone(phone + "@" + server) == Some(phone)
    ensures ExtractPhone(phone + ":" + device + "@" + server) == Some(phone)
  {
    FirstSeparator(phone, '@', server);
    var withDevice := phone + ":" + device;
    assert '@' !in withDevice by {
      assert forall i :: 0 <= i < |withDevice| ==> withDevice[i] == (if i < |phone| then phone[i] else if i == |phone| then ':' else device[i - |phone| - 1]);
    }
    FirstSeparator(withDevice, '@', server);
    assert (withDevice + "@" + server)[..|withDevice|] == withDevice;
    FirstSeparator(phone, ':', device);
    assert withDevice[..|phone|] == phone;
    assert (phone + "@" + server)[..|phone|] == phone;
  }

  /** `parseDiscordActor(actorId)`: the id is trimmed, then parsed as the
      messenger parses it. */
  function ParseDiscordActor(actorId: string): (r: Option<Messenger.DiscordChannel>)
    ensures r.Some? ==> StartsWith(Trim(actorId), Messenger.DiscordPrefix)
    ensures r.Some? ==> Tidy(r.value.guildId) && Tidy(r.value.channelId) && ':' !in r.value.guildId
  {
    Messenger.ParseDiscordActorId(Trim(actorId))
  }

  /** The id the Discord adapter builds parses back, with or without white
      space around it; the messenger's own parser, which does not trim,
      refuses the padded form. */
  lemma ParseDiscordActorPadded(guildId: string, channelId: string)
    requires Tidy(guildId) && ':' !in guildId && Tidy(channelId)
    ensures ParseDiscordActor(Discord.ActorId(guildId, channelId)) == Some(Messenger.DiscordChannel(guildId, channelId))
    ensures ParseDiscordActor(" " + Discord.ActorId(guildId, channelId)) == Some(Messenger.DiscordChannel(guildId, channelId))
    ensures Messenger.ParseDiscordActorId(" " + Discord.ActorId(guildId, channelId)).None?
  {
    var a := Discord.ActorId(guildId, channelId);
    assert a[0] == 'd' && !IsSpace(a[|a| - 1]);
    TrimVisibleEnds(a);
    assert (" " + a)[1..] == a;
    assert TrimStart(" " + a) == a;
    Messenger.ParseActorIdRoundTrip(guildId, channelId);
  }

  // ---------------------------------------------------------------- command arguments

  /** The three parts of `shellSplit2`. */
  datatype Split2 = Split2(a: string, b: string, rest: string)

  /** `shellSplit2(raw)`: the first two white-space separated words and the
      remaining words joined by single spaces; None for fewer than two words. */
  function ShellSplit2(raw: string): (r: Option<Split2>)
    ensures r.Some? <==> |Words(Trim(raw))| >= 2
    ensures r.Some? ==> IsWord(r.value.a) && IsWord(r.value.b)
    ensures r.Some? ==> var ws := Words(Trim(raw));
              |ws| >= 2 && r.value == Split2(ws[0], ws[1], Join(ws[2..], " "))
  {
    var s := Trim(raw);
    if s == [] then None
    else
      var parts := Words(s);
      if |parts| < 2 then None
      else Some(Split2(parts[0], parts[1], Join(parts[2..], " ")))
  }

  /** A word followed by white space, or by nothing, is the whole leading run
      of visible characters. */
  lemma {:induction false} NonSpaceRunOfWord(w: string, u: string)
    requires IsWord(w) && (u == [] || IsSpace(u[0]))
    ensures NonSpaceRun(w + u) == |w|
    decreases |w|
  {
    if |w| > 1 {
      assert (w + u)[1..] == w[1..] + u;
      assert IsWord(w[1..]) by {
        forall j | 0 <= j < |w| - 1 ensures !IsSpace(w[1..][j]) {
          assert w[1..][j] == w[j + 1];
        }
      }
      NonSpaceRunOfWord(w[1..], u);
    } else {
      assert (w + u)[1..] == u;
    }
  }

  /** White space in front of a text does not change its words. */
  lemma WordsAfterSpace(x: string, c: char)
    requires IsSpace(c)
    ensures Words([c] + x) == Words(x)
  {
    assert ([c] + x)[1..] == x;
    assert TrimStart([c] + x) == TrimStart(x);
  }

  /** A word followed by white space and a text: that word, then the
      text's words. */
  lemma WordThenText(w: string, rest: string)
    requires IsWord(w)
    ensures Words(w + [' '] + rest) == [w] + Words(rest)
  {
    var s := w + [' '] + rest;
    assert s[0] == w[0];
    TrimStartVisible(s);
    assert s == w + ([' '] + rest);
    NonSpaceRunOfWord(w, [' '] + rest);
    assert s[..|w|] == w;
    assert s[|w|..] == [' '] + rest;
    WordsAfterSpace(rest, ' ');
  }

  /** A single word is its only word. */
  lemma WordAlone(w: string)
    requires IsWord(w)
    ensures Words(w) == [w]
  {
    TrimStartVisible(w);
    NonSpaceRunOfWord(w, []);
    assert w + [] == w;
    assert w[..|w|] == w;
    assert w[|w|..] == [];
  }

  /** Joining words with single spaces and splitting at white space gives
      the words back. */
  lemma {:induction false} WordsOfJoin(ws: seq<string>)
    requires forall i :: 0 <= i < |ws| ==> IsWord(ws[i])
    ensures Words(Join(ws, " ")) == ws
    decreases |ws|
  {
    if |ws| == 0 {
      assert Join(ws, " ") == [];
      assert TrimStart([]) == [];
    } else if |ws| == 1 {
      WordAlone(ws[0]);
    } else {
      var tail := ws[1..];
      assert ws == [ws[0]] + tail;
      assert forall i :: 0 <= i < |tail| ==> IsWord(tail[i]) by {
        forall i | 0 <= i < |tail| ensures IsWord(tail[i]) {
          assert tail[i] == ws[i + 1];
        }
      }
      JoinCons(ws, " ");
      WordThenText(ws[0], Join(tail, " "));
      WordsOfJoin(tail);
    }
  }

  /** Words joined by single spaces are their own trim. */
  lemma TrimOfJoinedWords(ws: seq<string>)
    requires |ws| >= 1 && forall i :: 0 <= i < |ws| ==> IsWord(ws[i])
    ensures Trim(Join(ws, " ")) == Join(ws, " ")
  {
    var s := Join(ws, " ");
    JoinStartsWithFirst(ws, " ");
    JoinEndsWithLast(ws, " ");
    var first := ws[0];
    var last := ws[|ws| - 1];
    assert s[..|first|][0] == s[0];
    assert s[|s| - |last|..][|last| - 1] == s[|s| - 1];
    TrimVisibleEnds(s);
  }

  /** Two or more words joined by single spaces split back into the first
      two words and the join of the others. */
  lemma ShellSplit2OfWords(ws: seq<string>)
    requires |ws| >= 2 && forall i :: 0 <= i < |ws| ==> IsWord(ws[i])
    ensures ShellSplit2(Join(ws, " ")) == Some(Split2(ws[0], ws[1], Join(ws[2..], " ")))
  {
    TrimOfJoinedWords(ws);
    WordsOfJoin(ws);
  }

  /** A flag's value: the token after it, or `true`. */
  datatype FlagValue = Text(text: string) | On

  /** The result of `parseFlagArgs`: positional tokens and named flags. */
  datatype FlagArgs = FlagArgs(pos: seq<string>, flags: map<string, FlagValue>)

  predicate IsFlag(t: string) { StartsWith(t, "--") }

  /** What the tokens `ts` add to `acc` when read left to right: a plain
      token is positional; "--" alone is skipped; "--name" takes all later
      tokens joined by spaces and ends the reading; "--key value" sets the
      key to the value and consumes both; "--key" before another flag or at
      the end sets the key to true. A later flag of the same key wins. */
  function FlagsFrom(ts: seq<string>, acc: FlagArgs): (r: FlagArgs)
    ensures |acc.pos| <= |r.pos| && r.pos[..|acc.pos|] == acc.pos
    ensures forall i :: |acc.pos| <= i < |r.pos| ==> r.pos[i] in ts && !IsFlag(r.pos[i])
    ensures forall k :: k in r.flags && k !in acc.flags ==> k != [] && "--" + k in ts
    decreases |ts|
  {
    if ts == [] then acc
    else
      var t := ts[0];
      assert forall x :: x in ts[1..] ==> x in ts;
      if !IsFlag(t) then
        var r := FlagsFrom(ts[1..], acc.(pos := acc.pos + [t]));
        assert r.pos[..|acc.pos|] == (acc.pos + [t])[..|acc.pos|];
        r
      else
        var key := t[2..];
        assert "--" + key == t;
        if key == [] then FlagsFrom(ts[1..], acc)
        else if key == "name" then acc.(flags := acc.flags[key := Text(Join(ts[1..], " "))])
        else if |ts| == 1 || ts[1] == [] || IsFlag(ts[1]) then
          FlagsFrom(ts[1..], acc.(flags := acc.flags[key := On]))
        else
          assert forall x :: x in ts[2..] ==> x in ts;
          FlagsFrom(ts[2..], acc.(flags := acc.flags[key := Text(ts[1])]))
  }

  /** `parseFlagArgs(rawText)` as a value: the white-space separated tokens
      read from an empty result. */
  function ParseFlags(rawText: string): (r: FlagArgs)
    ensures forall i :: 0 <= i < |r.pos| ==> r.pos[i] in Words(rawText) && !IsFlag(r.pos[i])
    ensures forall k :: k in r.flags ==> k != [] && "--" + k in Words(rawText)
  {
    FlagsFrom(Words(rawText), FlagArgs([], map[]))
  }

  /** `parseFlagArgs(rawText)`: the index loop over the tokens. */
  method ParseFlagArgs(rawText: string) returns (out: FlagArgs)
    ensures out == ParseFlags(rawText)
  {
    var tokens := Words(rawText);
    out := FlagArgs([], map[]);
    var i := 0;
    while i < |tokens|
      invariant 0 <= i <= |tokens|
      invariant FlagsFrom(tokens[i..], out) == ParseFlags(rawText)
      decreases |tokens| - i
    {
      var t := tokens[i];
      assert tokens[i..][0] == t;
      assert tokens[i..][1..] == tokens[i + 1..];
      if !IsFlag(t) {
        out := out.(pos := out.pos + [t]);
        i := i + 1;
        continue;
      }
      var key := t[2..];
      if key == [] {
        i := i + 1;
        continue;
      }
      if key == "name" {
        out := out.(flags := out.flags[key := Text(Join(tokens[i + 1..], " "))]);
        return;
      }
      if i + 1 == |tokens| || tokens[i + 1] == [] || IsFlag(tokens[i + 1]) {
        out := out.(flags := out.flags[key := On]);
        i := i + 1;
      } else {
        assert tokens[i..][1] == tokens[i + 1];
        assert tokens[i..][2..] == tokens[i + 2..];
        out := out.(flags := out.flags[key := Text(tokens[i + 1])]);
        i := i + 2;
      }
    }
    assert tokens[i..] == [];
  }

  /** One step of the reading over a plain token. */
  lemma PlainStep(ts: seq<string>, acc: FlagArgs)
    requires ts != [] && !IsFlag(ts[0])
    ensures FlagsFrom(ts, acc) == FlagsFrom(ts[1..], acc.(pos := acc.pos + [ts[0]]))
  {
  }

  /** One step of the reading over "--name". */
  lemma NameStep(ts: seq<string>, acc: FlagArgs)
    requires ts != [] && ts[0] == "--name"
    ensures FlagsFrom(ts, acc) == acc.(flags := acc.flags["name" := Text(Join(ts[1..], " "))])
  {
    assert IsFlag(ts[0]) && ts[0][2..] == "name";
  }

  /** Without flag tokens every token is positional, in order, and no flag is set. */
  lemma {:induction false} PlainTokensArePositional(ts: seq<string>, acc: FlagArgs)
    requires forall i :: 0 <= i < |ts| ==> !IsFlag(ts[i])
    ensures FlagsFrom(ts, acc) == acc.(pos := acc.pos + ts)
    decreases |ts|
  {
    if ts == [] {
      assert acc.pos + ts == acc.pos;
    } else {
      var next := acc.(pos := acc.pos + [ts[0]]);
      calc {
        FlagsFrom(ts, acc);
        == { PlainStep(ts, acc); }
        FlagsFrom(ts[1..], next);
        == { PlainTokensArePositional(ts[1..], next); }
        next.(pos := next.pos + ts[1..]);
        == { assert acc.pos + [ts[0]] + ts[1..] == acc.pos + ts; }
        acc.(pos := acc.pos + ts);
      }
    }
  }

  /** "--name" after plain tokens takes every later token, joined by spaces,
      as the name and ends the reading, whatever those tokens are. */
  lemma {:induction false} NameTakesTheRest(pre: seq<string>, rest: seq<string>, acc: FlagArgs)
    requires forall i :: 0 <= i < |pre| ==> !IsFlag(pre[i])
    ensures FlagsFrom(pre + ["--name"] + rest, acc)
            == FlagArgs(acc.pos + pre, acc.flags["name" := Text(Join(rest, " "))])
    decreases |pre|
  {
    var ts := pre + ["--name"] + rest;
    var named := Text(Join(rest, " "));
    if pre == [] {
      assert ts[0] == "--name" && ts[1..] == rest;
      NameStep(ts, acc);
      assert acc.pos + pre == acc.pos;
    } else {
      var next := acc.(pos := acc.pos + [pre[0]]);
      calc {
        FlagsFrom(ts, acc);
        == { assert ts[0] == pre[0]; PlainStep(ts, acc); }
        FlagsFrom(ts[1..], next);
        == { assert ts[1..] == pre[1..] + ["--name"] + rest; }
        FlagsFrom(pre[1..] + ["--name"] + rest, next);
        == { NameTakesTheRest(pre[1..], rest, next); }
        FlagArgs(next.pos + pre[1..], next.flags["name" := named]);
        == { assert acc.pos + [pre[0]] + pre[1..] == acc.pos + pre; }
        FlagArgs(acc.pos + pre, acc.flags["name" := named]);
      }
    }
  }

  // ---------------------------------------------------------------- task ids and replies

  /** `[a-z0-9]` under the `i` flag. */
  predicate IsAlnum(c: char) { 'a' <= c <= 'z' || 'A' <= c <= 'Z' || '0' <= c <= '9' }

  /** Where the run of hexadecimal digits that starts at `k` ends. */
  function HexEnd(s: string, k: nat): (e: nat)
    requires k <= |s|
    ensures k <= e <= |s| && (e == |s| || !IsHexDigit(s[e]))
    ensures forall i :: k <= i < e ==> IsHexDigit(s[i])
    decreases |s| - k
  {
    if k == |s| || !IsHexDigit(s[k]) then k else HexEnd(s, k + 1)
  }

  /** Where the run of white space that starts at `k` ends. */
  function SpaceEnd(s: string, k: nat): (e: nat)
    requires k <= |s|
    ensures k <= e <= |s| && (e == |s| || !IsSpace(s[e]))
    decreases |s| - k
  {
    if k == |s| || !IsSpace(s[k]) then k else SpaceEnd(s, k + 1)
  }

  /** `/^([a-z0-9]{2}|task-[a-f0-9]{6,})$/i`: the two forms of task id a user
      types, a two-character id or "task-" and six or more hex digits, in
      any letter case. */
  predicate IsTaskIdShape(t: string)
  {
    (|t| == 2 && IsAlnum(t[0]) && IsAlnum(t[1]))
    || (|t| >= 11 && StartsTaskWord(t) && forall i :: 5 <= i < |t| ==> IsHexDigit(t[i]))
  }

  /** The text starts with "task-" in any letter case. */
  predicate StartsTaskWord(t: string)
  {
    |t| >= 5 && (t[0] == 't' || t[0] == 'T') && (t[1] == 'a' || t[1] == 'A')
    && (t[2] == 's' || t[2] == 'S') && (t[3] == 'k' || t[3] == 'K') && t[4] == '-'
  }

  /** A task id addressed in front of a message. */
  datatype TaskPrefix = TaskPrefix(taskId: string, message: string)

  /** The rest of the match once the id ends at `p`: optional white space,
      ':' and at least one more character, whose trim is the message. */
  function AfterTaskId(text: string, p: nat): (r: Option<TaskPrefix>)
    requires p <= |text|
    ensures r.Some? ==> r.value.taskId == text[..p] && Trim(r.value.message) == r.value.message
  {
    var q := SpaceEnd(text, p);
    if q + 1 < |text| && text[q] == ':' then
      TrimIdempotent(text[q + 1..]);
      Some(TaskPrefix(text[..p], Trim(text[q + 1..])))
    else None
  }

  /** The two-character form of the match. */
  function ShortForm(text: string): (r: Option<TaskPrefix>)
  {
    if |text| >= 2 && IsAlnum(text[0]) && IsAlnum(text[1]) then AfterTaskId(text, 2) else None
  }

  /** The "task-" form of the match, which takes every hex digit that follows. */
  function LongForm(text: string): (r: Option<TaskPrefix>)
  {
    if StartsTaskWord(text) then
      var e := HexEnd(text, 5);
      if e >= 11 then AfterTaskId(text, e) else None
    else None
  }

  /** `parseTaskPrefix(text)`: "<id>:<message>" with optional white space
      around the ':', matched on the untrimmed text, the two-character form
      first. */
  function ParseTaskPrefix(text: string): (r: Option<TaskPrefix>)
    ensures r.Some? ==> IsTaskIdShape(r.value.taskId) && StartsWith(text, r.value.taskId)
    ensures r.Some? ==> Trim(r.value.message) == r.value.message
  {
    var short := ShortForm(text);
    ShortFormShape(text);
    LongFormShape(text);
    if short.Some? then short else LongForm(text)
  }

  /** The two-character form yields a task id the text starts with and a
      trimmed message. */
  lemma ShortFormShape(text: string)
    ensures ShortForm(text).Some? ==>
              (IsTaskIdShape(ShortForm(text).value.taskId) && StartsWith(text, ShortForm(text).value.taskId)
               && Trim(ShortForm(text).value.message) == ShortForm(text).value.message)
  {
  }

  /** The "task-" form yields a task id the text starts with and a trimmed
      message. */
  lemma LongFormShape(text: string)
    ensures LongForm(text).Some? ==>
              (IsTaskIdShape(LongForm(text).value.taskId) && StartsWith(text, LongForm(text).value.taskId)
               && Trim(LongForm(text).value.message) == LongForm(text).value.message)
  {
    if StartsTaskWord(text) {
      var e := HexEnd(text, 5);
      if e >= 11 {
        LongIdShape(text, e);
      }
    }
  }

  /** "task-" and a run of at least six hex digits at the front of a text is
      a task id. */
  lemma LongIdShape(text: string, e: nat)
    requires 11 <= e <= |text| && StartsTaskWord(text)
    requires forall i :: 5 <= i < e ==> IsHexDigit(text[i])
    ensures IsTaskIdShape(text[..e]) && StartsWith(text, text[..e])
  {
    var id := text[..e];
    assert id[..5] == text[..5];
    assert StartsTaskWord(id) by {
      assert id[0] == text[0] && id[1] == text[1] && id[2] == text[2] && id[3] == text[3] && id[4] == text[4];
    }
    forall i | 5 <= i < |id| ensures IsHexDigit(id[i]) {
      assert id[i] == text[i];
    }
  }

  /** A run of hex digits from `k` to `e`, followed by a non-hex character or
      by nothing, ends at `e`. */
  lemma {:induction false} HexEndAt(s: string, k: nat, e: nat)
    requires k <= e <= |s|
    requires forall i :: k <= i < e ==> IsHexDigit(s[i])
    requires e == |s| || !IsHexDigit(s[e])
    ensures HexEnd(s, k) == e
    decreases e - k
  {
    if k < e {
      HexEndAt(s, k + 1, e);
    }
  }

  /** A space followed by a trimmed text trims to that text. */
  lemma TrimSpaceThen(m: string)
    requires Tidy(m)
    ensures Trim([' '] + m) == m
  {
    assert ([' '] + m)[1..] == m;
    assert !IsSpace(m[0]) && !IsSpace(m[|m| - 1]);
    assert TrimStart([' '] + m) == m;
  }

  /** After the id, ": " and a trimmed message match with that message. */
  lemma AfterTaskIdOf(text: string, p: nat, message: string)
    requires p <= |text| && text[p..] == ": " + message && Tidy(message)
    ensures AfterTaskId(text, p) == Some(TaskPrefix(text[..p], message))
  {
    assert text[p] == text[p..][0] == ':';
    assert SpaceEnd(text, p) == p;
    assert text[p + 1..] == text[p..][1..] == [' '] + message;
    TrimSpaceThen(message);
  }

  /** A long id is not matched by the two-character form. */
  lemma LongIdNotShort(id: string, rest: string)
    requires IsTaskIdShape(id) && |id| != 2
    ensures ShortForm(id + rest).None?
  {
    var text := id + rest;
    assert text[2] == id[2];
    assert SpaceEnd(text, 2) == 2;
  }

  /** A long id followed by ':' is matched whole by the "task-" form. */
  lemma LongIdLongForm(id: string, rest: string)
    requires IsTaskIdShape(id) && |id| != 2 && rest != [] && rest[0] == ':'
    ensures LongForm(id + rest) == AfterTaskId(id + rest, |id|)
  {
    var text := id + rest;
    assert StartsTaskWord(text);
    assert text[|id|] == ':';
    HexEndAt(text, 5, |id|);
  }

  /** "<id>: <message>" parses back to the id and the message. */
  lemma ParseTaskPrefixOf(id: string, message: string)
    requires IsTaskIdShape(id) && Tidy(message)
    ensures ParseTaskPrefix(id + ": " + message) == Some(TaskPrefix(id, message))
  {
    if |id| == 2 {
      ShortIdOf(id, message);
    } else {
      LongIdOf(id, message);
    }
  }

  /** The two-character case of `ParseTaskPrefixOf`. */
  lemma ShortIdOf(id: string, message: string)
    requires IsTaskIdShape(id) && |id| == 2 && Tidy(message)
    ensures ShortForm(id + ": " + message) == Some(TaskPrefix(id, message))
  {
    var text := id + ": " + message;
    assert text[..2] == id;
    assert text[2..] == ": " + message;
    AfterTaskIdOf(text, 2, message);
  }

  /** The "task-" case of `ParseTaskPrefixOf`. */
  lemma LongIdOf(id: string, message: string)
    requires IsTaskIdShape(id) && |id| != 2 && Tidy(message)
    ensures ShortForm(id + ": " + message).None?
    ensures LongForm(id + ": " + message) == Some(TaskPrefix(id, message))
  {
    var text := id + ": " + message;
    assert text == id + (": " + message);
    assert text[..|id|] == id;
    assert text[|id|..] == ": " + message;
    AfterTaskIdOf(text, |id|, message);
    LongIdNotShort(id, ": " + message);
    LongIdLongForm(id, ": " + message);
  }

  /** White space alone after the ':' still matches, with an empty message. */
  lemma BlankMessageMatches()
    ensures ParseTaskPrefix("ab: ") == Some(TaskPrefix("ab", ""))
  {
    var text := "ab: ";
    assert IsAlnum(text[0]) && IsAlnum(text[1]);
    assert text[..2] == "ab";
    assert SpaceEnd(text, 2) == 2;
    assert text[3..] == " ";
    assert " "[1..] == [];
    assert TrimStart(" ") == [];
    assert Trim(" ") == [];
    assert AfterTaskId(text, 2) == Some(TaskPrefix("ab", ""));
  }

  /** What a reply to "which task?" names. */
  datatype Selection = ByIndex(index: nat) | ByTaskId(taskId: string)

  predicate AllDigits(s: string) { forall i :: 0 <= i < |s| ==> IsDigit(s[i]) }

  /** `parseSelectionReply(text)`: on the trimmed text, all digits give a
      1-based position, checked first; a task id gives that id; anything
      else nothing. */
  function ParseSelectionReply(text: string): (r: Option<Selection>)
    ensures r.Some? <==> (Trim(text) != [] && AllDigits(Trim(text))) || IsTaskIdShape(Trim(text))
    ensures r.Some? && r.value.ByTaskId? ==> IsTaskIdShape(r.value.taskId)
  {
    var t := Trim(text);
    if t != [] && AllDigits(t) then Some(ByIndex(DecimalValue(t)))
    else if IsTaskIdShape(t) then Some(ByTaskId(t))
    else None
  }

  /** A number in decimal selects that position. */
  lemma SelectionOfNumber(n: nat)
    ensures ParseSelectionReply(NatToString(n)) == Some(ByIndex(n))
  {
    var s := NatToString(n);
    assert !IsSpace(s[0]) && !IsSpace(s[|s| - 1]);
    TrimVisibleEnds(s);
    DecimalRoundTrip(n);
  }

  /** A task id that is not all digits selects that id. */
  lemma SelectionOfTaskId(id: string)
    requires IsTaskIdShape(id) && !AllDigits(id)
    ensures ParseSelectionReply(id) == Some(ByTaskId(id))
  {
    assert !IsSpace(id[0]) && !IsSpace(id[|id| - 1]) by {
    }
    TrimVisibleEnds(id);
  }

  /** Digits are read as a position even when they also form a two-character id. */
  lemma DigitsReadAsPosition(d1: char, d2: char)
    requires IsDigit(d1) && IsDigit(d2)
    ensures IsTaskIdShape([d1, d2])
    ensures ParseSelectionReply([d1, d2]).Some? && ParseSelectionReply([d1, d2]).value.ByIndex?
  {
    var t := [d1, d2];
    assert !IsSpace(t[0]) && !IsSpace(t[1]);
    TrimVisibleEnds(t);
    assert AllDigits(t);
  }

  /** The texts that confirm a pending purchase, compared lower-cased. */
  const PurchaseConfirmations: seq<string> := ["/confirm", "confirmo compra", "confirmo a compra", "confirmo"]

  /** `isPurchaseConfirmationText(text)`. */
  predicate IsPurchaseConfirmationText(text: string)
  {
    Lower(Trim(text)) in PurchaseConfirmations
  }

  /** A confirmation phrase in any letter case confirms, and a text that
      confirms is never blank. */
  lemma PurchaseConfirmationAnyCase(p: string, t: string)
    requires p in PurchaseConfirmations
    requires |t| == |p| && forall i :: 0 <= i < |t| ==> LowerChar(t[i]) == p[i]
    ensures IsPurchaseConfirmationText(t)
    ensures IsPurchaseConfirmationText(t) ==> !IsBlank(t)
  {
    assert p[0] == '/' || p[0] == 'c';
    assert p[|p| - 1] == 'm' || p[|p| - 1] == 'a' || p[|p| - 1] == 'o';
    assert LowerChar(t[0]) == p[0] && LowerChar(t[|t| - 1]) == p[|p| - 1];
    TrimVisibleEnds(t);
    assert Lower(t) == p;
  }
}
