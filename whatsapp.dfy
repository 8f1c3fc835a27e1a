/** The pure decisions of the WhatsApp adapter (src/services/whatsapp.js):
    message splitting, JID formatting, the inbound content-type mapping and
    the reconnect decision. The socket, its timers and media download are not
    part of this model. */
module WhatsApp {
  import opened Wrappers
  import opened Strings
  import MessageSplit

  const MaxMessageLength: nat := 4000

  /** `splitMessage(text)` with the adapter's limit of 4000 characters. */
  method SplitMessage(text: string) returns (parts: seq<string>)
    ensures parts == MessageSplit.SplitSpec(text, MaxMessageLength)
  {
    parts := MessageSplit.SplitMessage(text, MaxMessageLength);
  }

  const UserSuffix: string := "@s.whatsapp.net"
  const GroupSuffix: string := "@g.us"

  /** `toJid(input)`: a trimmed input holding '@' is already a JID; otherwise
      its digits form a user JID. Empty input and input without digits are
      errors. */
  function ToJid(input: string): (r: Result<string, string>)
    ensures IsBlank(input) ==> r == Failure("Phone/JID is required")
    ensures !IsBlank(input) && '@' in Trim(input) ==> r == Success(Trim(input))
    ensures !IsBlank(input) && '@' !in Trim(input) && DigitsOnly(Trim(input)) == [] ==> r == Failure("Invalid phone number")
    ensures r.Success? ==> '@' in r.value && Trim(r.value) == r.value
  {
    var raw := Trim(input);
    if raw == [] then Failure("Phone/JID is required")
    else if '@' in raw then
      TrimIdempotent(input);
      Success(raw)
    else
      var digits := DigitsOnly(raw);
      if digits == [] then Failure("Invalid phone number")
      else
        var jid := digits + UserSuffix;
        assert jid[|digits|] == '@';
        assert !IsSpace(jid[0]) && !IsSpace(jid[|jid| - 1]);
        TrimVisibleEnds(jid);
        Success(jid)
  }

  /** A user JID is the digits of the number followed by the user suffix. */
  lemma ToJidOfNumber(input: string)
    requires !IsBlank(input) && '@' !in Trim(input) && DigitsOnly(Trim(input)) != []
    ensures ToJid(input) == Success(DigitsOnly(Trim(input)) + UserSuffix)
    ensures !IsGroupJid(ToJid(input).value)
  {
    var jid := DigitsOnly(Trim(input)) + UserSuffix;
    assert jid[|jid| - 1] == 't';
    assert jid[|jid| - 5..][4] == 't' != GroupSuffix[4];
  }

  /** Formatting a JID again leaves it unchanged. */
  lemma ToJidIdempotent(input: string)
    requires ToJid(input).Success?
    ensures ToJid(ToJid(input).value) == ToJid(input)
  {
  }

  /** `isGroupJid(jid)`. */
  predicate IsGroupJid(jid: string)
  {
    EndsWith(jid, GroupSuffix)
  }

  /** The kind of an inbound message. */
  datatype MessageKind = Text | Image | Audio | Voice

  /** The content-type mapping of `normalizeInboundMessage`: the two text
      types give text, an image gives image, an audio note is voice when it is
      push-to-talk and audio otherwise; every other type is dropped. */
  function KindOf(contentType: string, ptt: bool): (k: Option<MessageKind>)
    ensures k == Some(Text) <==> contentType == "conversation" || contentType == "extendedTextMessage"
    ensures k == Some(Image) <==> contentType == "imageMessage"
    ensures k == Some(Voice) <==> contentType == "audioMessage" && ptt
    ensures k == Some(Audio) <==> contentType == "audioMessage" && !ptt
  {
    if contentType == "conversation" || contentType == "extendedTextMessage" then Some(Text)
    else if contentType == "imageMessage" then Some(Image)
    else if contentType == "audioMessage" then Some(if ptt then Voice else Audio)
    else None
  }

  /** What the adapter reads from a received message once the library has
      extracted its content (its content type is an input). `text` is the
      text of a text message and `caption` the caption of an image. */
  datatype RawMessage = RawMessage(hasKey: bool, contentType: Option<string>, remoteJid: string,
                                   participant: string, fromMe: bool, id: Option<string>, ptt: bool,
                                   text: string, caption: string)

  /** The inbound payload handed to the message handler. */
  datatype Inbound = Inbound(instanceId: string, kind: MessageKind, isGroup: bool, fromMe: bool,
                             from: string, messageId: Option<string>, content: string, hasMedia: bool)

  /** `normalizeInboundMessage`: None without a key, without content or for
      an unsupported type; the sender is the participant when there is one,
      else the remote JID. */
  function NormalizeInboundMessage(m: RawMessage, instanceId: string): (r: Option<Inbound>)
    ensures r.Some? <==> m.hasKey && m.contentType.Some? && KindOf(m.contentType.value, m.ptt).Some?
    ensures r.Some? ==>
      r.value.kind == KindOf(m.contentType.value, m.ptt).value
      && r.value.isGroup == IsGroupJid(m.remoteJid)
      && r.value.from == (if m.participant != [] then m.participant else m.remoteJid)
      && (r.value.hasMedia <==> r.value.kind != Text)
      && (r.value.kind == Text ==> r.value.content == m.text)
      && (r.value.kind == Image ==> r.value.content == m.caption)
      && (r.value.kind in {Audio, Voice} ==> r.value.content == [])
  {
    if !m.hasKey || m.contentType.None? then None
    else
      match KindOf(m.contentType.value, m.ptt)
      case None => None
      case Some(kind) =>
        var from := if m.participant != [] then m.participant else m.remoteJid;
        var content := match kind
          case Text => m.text
          case Image => m.caption
          case _ => [];
        Some(Inbound(instanceId, kind, IsGroupJid(m.remoteJid), m.fromMe, from, m.id, content, kind != Text))
  }

  /** Baileys' disconnect reasons that end the session for good. */
  const LoggedOut: int := 401
  const BadSession: int := 500

  /** The status code of a disconnect; a missing one counts as 0. */
  function DisconnectStatusCode(code: Option<int>): int
  {
    if code.Some? then code.value else 0
  }

  /** The reconnect decision on a closed connection. */
  predicate ShouldReconnect(stopRequested: bool, statusCode: int)
  {
    !stopRequested && statusCode != LoggedOut && statusCode != BadSession
  }

  /** A requested stop, a logged-out session and a bad session never
      reconnect; any other close does. */
  lemma ReconnectCases(stopRequested: bool, statusCode: int)
    ensures stopRequested ==> !ShouldReconnect(stopRequested, statusCode)
    ensures statusCode in {LoggedOut, BadSession} ==> !ShouldReconnect(stopRequested, statusCode)
    ensures !stopRequested && statusCode !in {LoggedOut, BadSession} ==> ShouldReconnect(stopRequested, statusCode)
  {
  }

  /** `sendMessage(to, text)` once the socket is available: the JID and the
      parts sent to it, in order, or the JID error. */
  function SendPlan(to: string, text: string): (r: Result<(string, seq<string>), string>)
    ensures r.Success? <==> ToJid(to).Success?
    ensures r.Success? ==> r.value.0 == ToJid(to).value && r.value.1 == MessageSplit.SplitSpec(text, MaxMessageLength)
  {
    match ToJid(to)
    case Failure(e) => Failure(e)
    case Success(jid) => Success((jid, MessageSplit.SplitSpec(text, MaxMessageLength)))
  }

  /** The payload of a data URL or bare base64 string: the longest suffix
      without a comma, which is everything after the last comma, or the whole
      string when it has none. */
  function AfterLastComma(s: string): (r: string)
    ensures EndsWith(s, r)
    ensures ',' !in r
    ensures |r| < |s| ==> s[|s| - |r| - 1] == ','
    ensures ',' !in s ==> r == s
  {
    if s == [] || s[|s| - 1] == ',' then []
    else
      var r' := AfterLastComma(s[..|s| - 1]);
      assert s[..|s| - 1][|s| - 1 - |r'|..] + [s[|s| - 1]] == s[|s| - 1 - |r'|..];
      r' + [s[|s| - 1]]
  }

  /** `sendImage(to, { base64, caption })` once the socket is available: an
      empty image is refused before anything else, then the JID is formed and
      the image goes out as the payload after the last comma, with the
      caption or an empty one. */
  function SendImagePlan(to: string, base64: string, caption: string): (r: Result<(string, string, string), string>)
    ensures base64 == [] ==> r == Failure("sendImage: base64 is required")
    ensures base64 != [] ==> (r.Success? <==> ToJid(to).Success?)
    ensures base64 != [] && ToJid(to).Failure? ==> r == Failure(ToJid(to).error)
    ensures r.Success? ==> ToJid(to).Success? && r.value == (ToJid(to).value, AfterLastComma(base64), caption)
  {
    if base64 == [] then Failure("sendImage: base64 is required")
    else
      var jid := ToJid(to);
      if jid.Failure? then Failure(jid.error)
      else
        var payload := AfterLastComma(base64);
        Success((jid.value, payload, caption))
  }
}
