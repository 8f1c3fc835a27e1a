/** The admission half of src/services/inbound-core.js: which inbound
    messages are let in (`shouldAllowDiscordMessage` and the checks at the
    head of `processInboundMessage`), the dropping of repeated deliveries,
    and where an admitted message goes next. */
module InboundAdmission {
  import opened Wrappers
  import opened Strings
  import TaskStore
  import Messenger
  import Discord
  import opened InboundCore

  /** The access lists of the configuration, and the WhatsApp instance id
      used for media that arrive without one. */
  datatype AccessConfig = AccessConfig(
    allowedPhoneNumbers: seq<string>, allowedGuildIds: seq<string>, adminUserIds: seq<string>,
    whatsappInstanceId: string)

  /** `isWhatsAppAuthorized(actorId)`. */
  predicate IsWhatsAppAuthorized(cfg: AccessConfig, actorId: string) { Trim(actorId) in cfg.allowedPhoneNumbers }

  /** `isDiscordGuildAllowed(guildId)`. */
  predicate IsDiscordGuildAllowed(cfg: AccessConfig, guildId: string) { Trim(guildId) in cfg.allowedGuildIds }

  /** `isDiscordAdmin(senderId)`. */
  predicate IsDiscordAdmin(cfg: AccessConfig, senderId: string) { Trim(senderId) in cfg.adminUserIds }

  /** A character of `\w`. */
  predicate IsWordChar(c: char)
  {
    'a' <= c <= 'z' || 'A' <= c <= 'Z' || '0' <= c <= '9' || c == '_'
  }

  /** The text starts with `word` in any letter case and the word ends
      there (`^word\b` with the `i` flag, for a word that ends in a word
      character). */
  predicate StartsWithWord(t: string, word: string)
  {
    |t| >= |word| && (forall i :: 0 <= i < |word| ==> LowerChar(t[i]) == word[i])
    && (|t| == |word| || !IsWordChar(t[|word|]))
  }

  /** `/^\/channel-(enable|disable|info)\b/i`; the enable command the
      source tests on its own is one of these. */
  predicate IsChannelAdminCommand(text: string)
  {
    StartsWithWord(text, "/channel-enable") || StartsWithWord(text, "/channel-disable")
    || StartsWithWord(text, "/channel-info")
  }

  /** A channel command starts with '/'. */
  lemma AdminCommandIsSlashed(t: string)
    requires IsChannelAdminCommand(t)
    ensures t != [] && t[0] == '/'
  {
    var w := if StartsWithWord(t, "/channel-enable") then "/channel-enable"
             else if StartsWithWord(t, "/channel-disable") then "/channel-disable" else "/channel-info";
    assert StartsWithWord(t, w);
    assert w[0] == '/';
    assert LowerChar(t[0]) == '/';
  }

  /** An inbound message as the adapters deliver it; a missing field is the
      empty string. */
  datatype InboundPayload = InboundPayload(
    transport: string, actorId: string, messageType: string, text: string,
    guildId: string, channelId: string, senderId: string,
    instanceId: string, messageId: string, hasRawData: bool)

  /** Why a Discord message is refused. */
  datatype Rejection = InvalidActor | GuildNotAllowed | ChannelDisabled(guildId: string, channelId: string)

  datatype Admission = Admitted(guildId: string, channelId: string) | Refused(reason: Rejection)

  /** The guild and channel of a Discord message: the payload's own when
      set, else those of its actor id, trimmed. */
  function DiscordIds(p: InboundPayload): (string, string)
  {
    var actor := ParseDiscordActor(p.actorId);
    (Trim(if p.guildId != "" then p.guildId else if actor.Some? then actor.value.guildId else ""),
     Trim(if p.channelId != "" then p.channelId else if actor.Some? then actor.value.channelId else ""))
  }

  /** `shouldAllowDiscordMessage(payload)`, with the enabled channels of the
      store given as a set: both ids are needed, the guild must be allowed,
      and a disabled channel lets in only an admin's channel command. */
  function ShouldAllowDiscordMessage(cfg: AccessConfig, p: InboundPayload, enabledChannels: set<string>): (r: Admission)
    ensures r.Admitted? ==> r.guildId != "" && r.channelId != "" && IsDiscordGuildAllowed(cfg, r.guildId)
    ensures r.Admitted? ==>
              r.channelId in enabledChannels || (IsChannelAdminCommand(Trim(p.text)) && IsDiscordAdmin(cfg, p.senderId))
    ensures r == Refused(GuildNotAllowed) ==> !IsDiscordGuildAllowed(cfg, DiscordIds(p).0)
    ensures r.Refused? && r.reason.ChannelDisabled? ==>
              r.reason.channelId !in enabledChannels && IsDiscordGuildAllowed(cfg, r.reason.guildId)
              && !(IsChannelAdminCommand(Trim(p.text)) && IsDiscordAdmin(cfg, p.senderId))
  {
    var (guildId, channelId) := DiscordIds(p);
    var senderId := Trim(p.senderId);
    TrimIdempotent(p.senderId);
    if guildId == "" || channelId == "" then Refused(InvalidActor)
    else if !IsDiscordGuildAllowed(cfg, guildId) then Refused(GuildNotAllowed)
    else if channelId !in enabledChannels && !(IsChannelAdminCommand(Trim(p.text)) && IsDiscordAdmin(cfg, senderId)) then
      Refused(ChannelDisabled(guildId, channelId))
    else Admitted(guildId, channelId)
  }

  /** The payload's own ids are used, trimmed, when it carries both. */
  lemma PayloadIdsWin(p: InboundPayload)
    requires Tidy(p.guildId) && Tidy(p.channelId)
    ensures DiscordIds(p) == (p.guildId, p.channelId)
  {
  }

  /** A message without ids of its own takes them from its actor id. */
  lemma ActorIdsFallBack(p: InboundPayload, guildId: string, channelId: string)
    requires p.guildId == "" && p.channelId == ""
    requires Tidy(guildId) && ':' !in guildId && Tidy(channelId)
    requires p.actorId == Discord.ActorId(guildId, channelId)
    ensures DiscordIds(p) == (guildId, channelId)
  {
    ParseDiscordActorPadded(guildId, channelId);
    TrimIdempotent(guildId);
    TrimIdempotent(channelId);
  }

  /** In an allowed guild, an enabled channel admits every message. */
  lemma EnabledChannelAdmits(cfg: AccessConfig, p: InboundPayload, enabledChannels: set<string>)
    requires Tidy(p.guildId) && Tidy(p.channelId)
    requires p.guildId in cfg.allowedGuildIds && p.channelId in enabledChannels
    ensures ShouldAllowDiscordMessage(cfg, p, enabledChannels) == Admitted(p.guildId, p.channelId)
  {
    PayloadIdsWin(p);
  }

  /** In an allowed guild, a disabled channel admits an admin's channel
      command and refuses everything else. */
  lemma DisabledChannelGate(cfg: AccessConfig, p: InboundPayload, enabledChannels: set<string>)
    requires Tidy(p.guildId) && Tidy(p.channelId)
    requires p.guildId in cfg.allowedGuildIds && p.channelId !in enabledChannels
    ensures IsChannelAdminCommand(Trim(p.text)) && IsDiscordAdmin(cfg, p.senderId) ==>
              ShouldAllowDiscordMessage(cfg, p, enabledChannels) == Admitted(p.guildId, p.channelId)
    ensures !(IsChannelAdminCommand(Trim(p.text)) && IsDiscordAdmin(cfg, p.senderId)) ==>
              ShouldAllowDiscordMessage(cfg, p, enabledChannels) == Refused(ChannelDisabled(p.guildId, p.channelId))
  {
    PayloadIdsWin(p);
    TrimIdempotent(p.senderId);
  }

  // ---------------------------------------------------------------- processInboundMessage

  /** What becomes of an inbound message. */
  datatype Verdict =
    | Ignored                                   // no transport or actor, another type or transport, a blank text, media without data
    | Unauthorized                              // a WhatsApp number not allowed
    | Rejected(reason: Rejection)               // a Discord message refused
    | Duplicate                                 // a delivery already seen
    | ToCommand(actorId: string, text: string, transport: string)
    | ToUserMessage(actorId: string, text: string, transport: string)
    | ToMedia(actorId: string, instanceId: string)

  /** The message types handled. */
  predicate IsHandledType(t: string) { t == "text" || t == "image" || t == "audio" || t == "voice" }

  /** The checks before the repeated-delivery test: a verdict when the
      message stops there, None when it goes on. */
  function Screen(cfg: AccessConfig, p: InboundPayload, enabledChannels: set<string>): (v: Option<Verdict>)
    ensures v.None? ==> Trim(p.actorId) != "" && IsHandledType(Lower(Trim(p.messageType)))
    ensures v.None? ==> (Lower(Trim(p.transport)) == "whatsapp" && IsWhatsAppAuthorized(cfg, p.actorId))
                        || (Lower(Trim(p.transport)) == "discord"
                            && ShouldAllowDiscordMessage(cfg, p, enabledChannels).Admitted?)
    ensures v.Some? ==> v.value.Ignored? || v.value.Unauthorized? || v.value.Rejected?
    ensures Trim(p.actorId) != "" && IsHandledType(Lower(Trim(p.messageType)))
            && ((Lower(Trim(p.transport)) == "whatsapp" && IsWhatsAppAuthorized(cfg, p.actorId))
                || (Lower(Trim(p.transport)) == "discord"
                    && ShouldAllowDiscordMessage(cfg, p, enabledChannels).Admitted?))
            ==> v.None?
  {
    var transport := Lower(Trim(p.transport));
    var actorId := Trim(p.actorId);
    TrimIdempotent(p.actorId);
    if transport == "" || actorId == "" then Some(Ignored)
    else if !IsHandledType(Lower(Trim(p.messageType))) then Some(Ignored)
    else if transport == "whatsapp" then
      if IsWhatsAppAuthorized(cfg, actorId) then None else Some(Unauthorized)
    else if transport == "discord" then
      var check := ShouldAllowDiscordMessage(cfg, p, enabledChannels);
      if check.Admitted? then None else Some(Rejected(check.reason))
    else Some(Ignored)
  }

  /** Where an admitted, first-seen message goes: a text that is blank is
      dropped, one starting with '/' goes to the command handler (which
      passes it on as a user message when it does not take it), any other
      text is a user message; media go on only over WhatsApp and with data. */
  function Delivery(cfg: AccessConfig, p: InboundPayload): (v: Verdict)
    ensures v.ToCommand? || v.ToUserMessage? ==>
              v.text == Trim(p.text) && v.text != "" && v.actorId == Trim(p.actorId)
    ensures v.ToCommand? <==> Lower(Trim(p.messageType)) == "text" && Trim(p.text) != "" && Trim(p.text)[0] == '/'
    ensures v.ToMedia? ==> Lower(Trim(p.transport)) == "whatsapp" && p.hasRawData
    ensures v.Ignored? || v.ToCommand? || v.ToUserMessage? || v.ToMedia?
  {
    var transport := Lower(Trim(p.transport));
    var actorId := Trim(p.actorId);
    if Lower(Trim(p.messageType)) == "text" then
      var text := Trim(p.text);
      if text == "" then Ignored
      else if text[0] == '/' then ToCommand(actorId, text, transport)
      else ToUserMessage(actorId, text, transport)
    else if transport != "whatsapp" || !p.hasRawData then Ignored
    else
      var instanceId := Trim(p.instanceId);
      ToMedia(actorId, if instanceId != "" then instanceId else cfg.whatsappInstanceId)
  }

  /** The verdict on an inbound message and the tables afterwards: only a
      message that passes the checks and carries both ids is recorded, and a
      recorded one that was seen before is dropped. */
  function Inbound(db: TaskStore.Tables, cfg: AccessConfig, p: InboundPayload, enabledChannels: set<string>)
    : (Verdict, TaskStore.Tables)
  {
    match Screen(cfg, p, enabledChannels)
    case Some(v) => (v, db)
    case None =>
      var instanceId := Trim(p.instanceId);
      var messageId := Trim(p.messageId);
      if instanceId != "" && messageId != "" then
        var key := TaskStore.DedupKey(instanceId, messageId);
        if key in db.dedup then (Duplicate, db)
        else (Delivery(cfg, p), db.(dedup := db.dedup + {key}))
      else (Delivery(cfg, p), db)
  }

  /** Adding a member changes no set. */
  lemma AddPresent(s: set<string>, k: string)
    requires k in s
    ensures s + {k} == s
  {
  }

  /** `processInboundMessage(payload)` up to the hand-over to the command
      handler, `processUserMessage` or the media handler. */
  method ProcessInboundMessage(store: TaskStore.TaskStore, cfg: AccessConfig, p: InboundPayload,
                               enabledChannels: set<string>) returns (v: Verdict)
    requires store.Valid()
    modifies store
    ensures store.Valid()
    ensures v == Inbound(old(store.db), cfg, p, enabledChannels).0
    ensures store.db == Inbound(old(store.db), cfg, p, enabledChannels).1
  {
    ghost var expected := Inbound(store.db, cfg, p, enabledChannels);
    var screened := Screen(cfg, p, enabledChannels);
    if screened.Some? {
      assert expected == (screened.value, store.db);
      return screened.value;
    }
    var instanceId := Trim(p.instanceId);
    var messageId := Trim(p.messageId);
    if instanceId != "" && messageId != "" {
      ghost var key := TaskStore.DedupKey(instanceId, messageId);
      var first := store.MarkInboundMessageProcessed(Some(instanceId), Some(messageId));
      if !first {
        assert key in old(store.db).dedup;
        AddPresent(old(store.db).dedup, key);
        assert expected == (Duplicate, store.db);
        return Duplicate;
      }
      assert expected == (Delivery(cfg, p), store.db);
    } else {
      assert expected == (Delivery(cfg, p), store.db);
    }
    v := Delivery(cfg, p);
  }

  /** A delivery that is repeated is dropped the second time and changes
      nothing more. */
  lemma RedeliveryIsDropped(db: TaskStore.Tables, cfg: AccessConfig, p: InboundPayload, enabledChannels: set<string>)
    requires Screen(cfg, p, enabledChannels).None?
    requires Trim(p.instanceId) != "" && Trim(p.messageId) != ""
    ensures var once := Inbound(db, cfg, p, enabledChannels).1;
            Inbound(once, cfg, p, enabledChannels) == (Duplicate, once)
  {
    var key := TaskStore.DedupKey(Trim(p.instanceId), Trim(p.messageId));
    assert key in Inbound(db, cfg, p, enabledChannels).1.dedup;
  }

  /** A Discord message of a handled type passes the checks exactly when
      `shouldAllowDiscordMessage` admits it. */
  lemma DiscordScreen(cfg: AccessConfig, p: InboundPayload, enabledChannels: set<string>)
    requires Lower(Trim(p.transport)) == "discord" && Trim(p.actorId) != ""
    requires IsHandledType(Lower(Trim(p.messageType)))
    ensures var check := ShouldAllowDiscordMessage(cfg, p, enabledChannels);
            Screen(cfg, p, enabledChannels) == if check.Admitted? then None else Some(Rejected(check.reason))
  {
    assert "discord"[0] != "whatsapp"[0];
  }

  /** An admitted text that starts with '/' goes to the command handler
      unless it was seen before. */
  lemma SlashTextIsCommand(db: TaskStore.Tables, cfg: AccessConfig, p: InboundPayload, enabledChannels: set<string>)
    requires Screen(cfg, p, enabledChannels).None?
    requires Lower(Trim(p.messageType)) == "text" && Trim(p.text) != "" && Trim(p.text)[0] == '/'
    requires TaskStore.DedupKey(Trim(p.instanceId), Trim(p.messageId)) !in db.dedup
    ensures Inbound(db, cfg, p, enabledChannels).0 == ToCommand(Trim(p.actorId), Trim(p.text), Lower(Trim(p.transport)))
  {
  }

  /** A Discord member's message in a disabled channel of an allowed guild is
      refused and leaves the tables, and so the phone's tasks, as they were;
      an admin's channel command in the same channel, not seen before, goes
      to the command handler. */
  lemma DisabledChannelCreatesNoTask(db: TaskStore.Tables, cfg: AccessConfig, p: InboundPayload,
                                     enabledChannels: set<string>)
    requires Lower(Trim(p.transport)) == "discord" && Trim(p.actorId) != "" && Lower(Trim(p.messageType)) == "text"
    requires Tidy(p.guildId) && Tidy(p.channelId)
    requires p.guildId in cfg.allowedGuildIds && p.channelId !in enabledChannels
    requires TaskStore.DedupKey(Trim(p.instanceId), Trim(p.messageId)) !in db.dedup
    ensures !IsDiscordAdmin(cfg, p.senderId) ==>
              Inbound(db, cfg, p, enabledChannels) == (Rejected(ChannelDisabled(p.guildId, p.channelId)), db)
    ensures IsDiscordAdmin(cfg, p.senderId) && IsChannelAdminCommand(Trim(p.text)) ==>
              Inbound(db, cfg, p, enabledChannels).0 == ToCommand(Trim(p.actorId), Trim(p.text), "discord")
  {
    DisabledChannelGate(cfg, p, enabledChannels);
    DiscordScreen(cfg, p, enabledChannels);
    if IsDiscordAdmin(cfg, p.senderId) && IsChannelAdminCommand(Trim(p.text)) {
      AdminCommandIsSlashed(Trim(p.text));
      SlashTextIsCommand(db, cfg, p, enabledChannels);
    }
  }
}
