/** The pure decisions of the Discord adapter (src/services/discord.js): the
    splitter, the guild allow-list, the inbound payload, the filters applied
    to a created message and the parts `sendDiscordMessage` sends. The client,
    its login and channel fetches are not part of this model. */
module Discord {
  import opened Wrappers
  import opened Strings
  import MessageSplit

  const DefaultMaxMessageLength: nat := 1900

  const UnsupportedAttachmentsMessage: string :=
    "\U{1F4CE} Anexos ainda nao sao suportados nesta versao do Discord. Envie texto por enquanto."

  /** `splitMessage(text, maxLength)`: the empty text is the one empty part;
      any other text is split by the shared loop. */
  method SplitMessage(text: string, maxLength: nat) returns (parts: seq<string>)
    requires maxLength >= 1
    ensures text == [] ==> parts == [""]
    ensures parts == MessageSplit.SplitSpec(text, maxLength)
  {
    if text == [] {
      return [""];
    }
    parts := MessageSplit.SplitMessage(text, maxLength);
  }

  /** Every part is within the limit, and only the empty text gives an empty
      part. */
  lemma PartsWithinLimit(text: string, maxLength: nat)
    requires maxLength >= 1
    ensures forall i :: 0 <= i < |MessageSplit.SplitSpec(text, maxLength)| ==>
              |MessageSplit.SplitSpec(text, maxLength)[i]| <= maxLength
    ensures text != [] ==> forall i :: 0 <= i < |MessageSplit.SplitSpec(text, maxLength)| ==>
              MessageSplit.SplitSpec(text, maxLength)[i] != []
  {
    MessageSplit.SplitSpecProperties(text, maxLength);
  }

  /** `isAllowedGuild(guildId)`: an empty allow-list admits no guild; otherwise
      the trimmed id must be listed. A missing id is the empty string. */
  function IsAllowedGuild(allowed: seq<string>, guildId: string): (r: bool)
    ensures allowed == [] ==> !r
    ensures r <==> exists i :: 0 <= i < |allowed| && allowed[i] == Trim(guildId)
  {
    allowed != [] && Trim(guildId) in allowed
  }

  /** The fields of a created message the adapter reads; a missing string is
      the empty string and `channelIsGuildText` says that the channel exists
      and is a guild text channel. */
  datatype Message = Message(id: string, webhookId: string, authorId: string, authorIsBot: bool,
                             inGuild: bool, guildId: string, channelId: string,
                             channelIsGuildText: bool, content: string, attachments: nat)

  /** The payload handed to the inbound handler. */
  datatype Payload = Payload(actorId: string, senderId: string, guildId: string, channelId: string,
                             text: string, messageId: string, instanceId: string, attachmentsCount: nat)

  /** The actor id of a channel: "dc:", the guild, ':' and the channel. */
  function ActorId(guildId: string, channelId: string): (r: string)
    ensures StartsWith(r, "dc:")
    ensures |r| == 4 + |guildId| + |channelId|
  {
    "dc:" + guildId + ":" + channelId
  }

  /** `normalizeInboundMessage`: None when the trimmed guild, channel or sender
      is empty; otherwise a text payload keyed by "dc:guild:channel". */
  function NormalizeInboundMessage(m: Message, instanceId: string): (r: Option<Payload>)
    ensures r.None? <==> IsBlank(m.guildId) || IsBlank(m.channelId) || IsBlank(m.authorId)
    ensures r.Some? ==>
      r.value.guildId == Trim(m.guildId) && r.value.channelId == Trim(m.channelId)
      && r.value.senderId == Trim(m.authorId)
      && r.value.actorId == ActorId(Trim(m.guildId), Trim(m.channelId))
      && r.value.text == m.content && r.value.messageId == m.id
      && r.value.instanceId == instanceId && r.value.attachmentsCount == m.attachments
  {
    var guildId := Trim(m.guildId);
    var channelId := Trim(m.channelId);
    var senderId := Trim(m.authorId);
    if guildId == [] || channelId == [] || senderId == [] then None
    else Some(Payload(ActorId(guildId, channelId), senderId, guildId, channelId,
                      m.content, m.id, instanceId, m.attachments))
  }

  /** The filters of `handleMessageCreate` ahead of normalisation: a handler
      is installed, the message has an id, it comes from neither a webhook nor
      a bot, it was sent in an allowed guild and in a guild text channel. */
  predicate Admitted(hasHandler: bool, allowed: seq<string>, m: Message)
  {
    hasHandler && m.id != [] && m.webhookId == [] && !m.authorIsBot
    && m.inGuild && m.guildId != [] && IsAllowedGuild(allowed, m.guildId) && m.channelIsGuildText
  }

  /** What `handleMessageCreate` does with a message. */
  datatype Reaction =
    | Ignore
    | WarnAttachments(channelId: string, text: string)
    | Deliver(payload: Payload)

  /** `handleMessageCreate`: a message with text goes to the handler; one
      without text but with attachments gets the unsupported-attachments
      warning, and only in an enabled channel; everything else is dropped. */
  function HandleMessageCreate(hasHandler: bool, allowed: seq<string>, enabledChannels: set<string>,
                               instanceId: string, m: Message): (r: Reaction)
    ensures !Admitted(hasHandler, allowed, m) ==> r == Ignore
    ensures r.Deliver? <==>
      Admitted(hasHandler, allowed, m) && NormalizeInboundMessage(m, instanceId).Some? && !IsBlank(m.content)
    ensures r.Deliver? ==> r.payload == NormalizeInboundMessage(m, instanceId).value
    ensures r.WarnAttachments? <==>
      Admitted(hasHandler, allowed, m) && NormalizeInboundMessage(m, instanceId).Some?
      && IsBlank(m.content) && m.attachments > 0 && Trim(m.channelId) in enabledChannels
    ensures r.WarnAttachments? ==> r.channelId == Trim(m.channelId) && r.text == UnsupportedAttachmentsMessage
  {
    if !Admitted(hasHandler, allowed, m) then Ignore
    else
      match NormalizeInboundMessage(m, instanceId)
      case None => Ignore
      case Some(payload) =>
        var text := Trim(payload.text);
        if text == [] && payload.attachmentsCount > 0 then
          if payload.channelId in enabledChannels then WarnAttachments(payload.channelId, UnsupportedAttachmentsMessage)
          else Ignore
        else if text == [] then Ignore
        else Deliver(payload)
  }

  /** The limit `sendDiscordMessage` splits with: the configured one when it
      is positive, else 1900. */
  function MaxLengthOf(configured: int): (r: nat)
    ensures r >= 1
    ensures configured > 0 ==> r == configured
    ensures configured <= 0 ==> r == DefaultMaxMessageLength
  {
    if configured > 0 then configured else DefaultMaxMessageLength
  }

  /** The content of each `channel.send`: an empty part is sent as one space. */
  function SentContents(parts: seq<string>): (sent: seq<string>)
    ensures |sent| == |parts|
    ensures forall i :: 0 <= i < |parts| ==> sent[i] != []
    ensures forall i :: 0 <= i < |parts| ==> (parts[i] != [] ==> sent[i] == parts[i]) && (parts[i] == [] ==> sent[i] == " ")
  {
    seq(|parts|, i requires 0 <= i < |parts| => if parts[i] == [] then " " else parts[i])
  }

  /** `sendDiscordMessage(channelId, text)`: the trimmed channel id and the
      contents sent to it in order, or the error raised for an empty channel
      id or a channel that is missing or not text-based. */
  function SendDiscordMessage(channelId: string, text: string, configuredMax: int, channelIsText: bool)
    : (r: Result<(string, seq<string>), string>)
    ensures IsBlank(channelId) ==> r == Failure("channelId is required")
    ensures !IsBlank(channelId) && !channelIsText ==>
              r == Failure("Discord channel is not text-based or not found: " + Trim(channelId))
    ensures r.Success? <==> !IsBlank(channelId) && channelIsText
    ensures r.Success? ==>
      r.value.0 == Trim(channelId) && r.value.1 == SentContents(MessageSplit.SplitSpec(text, MaxLengthOf(configuredMax)))
  {
    var id := Trim(channelId);
    if id == [] then Failure("channelId is required")
    else if !channelIsText then Failure("Discord channel is not text-based or not found: " + id)
    else Success((id, SentContents(MessageSplit.SplitSpec(text, MaxLengthOf(configuredMax)))))
  }

  /** A non-empty text is sent exactly as it is split, each part within the
      limit; the empty text is sent as a single space. */
  lemma SentAsSplit(channelId: string, text: string, configuredMax: int)
    requires !IsBlank(channelId)
    ensures text == [] ==> SendDiscordMessage(channelId, text, configuredMax, true).value.1 == [" "]
    ensures text != [] ==>
      SendDiscordMessage(channelId, text, configuredMax, true).value.1 == MessageSplit.SplitSpec(text, MaxLengthOf(configuredMax))
    ensures forall i :: 0 <= i < |SendDiscordMessage(channelId, text, configuredMax, true).value.1| ==>
      1 <= |SendDiscordMessage(channelId, text, configuredMax, true).value.1[i]| <= MaxLengthOf(configuredMax)
  {
    var parts := MessageSplit.SplitSpec(text, MaxLengthOf(configuredMax));
    PartsWithinLimit(text, MaxLengthOf(configuredMax));
    if text != [] {
      assert SentContents(parts) == parts;
    }
  }
}
