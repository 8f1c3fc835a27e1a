/** The transport router (src/services/messenger.js): actor ids that start
    with "dc:" name a Discord channel, every other actor id is a WhatsApp
    number or JID. The adapters it calls are modelled by the deliveries they
    receive. */
module Messenger {
  import opened Wrappers
  import opened Strings
  import Discord

  const DiscordPrefix: string := "dc:"

  /** `isDiscordActorId(actorId)`; a missing id is the empty string. */
  predicate IsDiscordActorId(actorId: string)
  {
    StartsWith(actorId, DiscordPrefix)
  }

  /** A Discord guild and channel. */
  datatype DiscordChannel = DiscordChannel(guildId: string, channelId: string)

  /** Trimming keeps a text free of a character it did not contain. */
  lemma TrimKeepsCharAbsent(s: string, c: char)
    requires c !in s
    ensures c !in Trim(s)
  {
    var r := Trim(s);
    var k :| OccursAt(s, r, k);
    forall i | 0 <= i < |r| ensures r[i] != c {
      assert r[i] == s[k + i];
    }
  }

  /** `parseDiscordActorId(actorId)`: after the prefix, the text up to the
      first ':' is the guild and the text after it the channel, both trimmed;
      None without the prefix, without a ':' past the first character of the
      rest, or with an empty guild or channel. */
  function ParseDiscordActorId(actorId: string): (r: Option<DiscordChannel>)
    ensures !IsDiscordActorId(actorId) ==> r.None?
    ensures r.Some? ==> Tidy(r.value.guildId) && Tidy(r.value.channelId) && ':' !in r.value.guildId
  {
    if !StartsWith(actorId, DiscordPrefix) then None
    else
      var rest := actorId[|DiscordPrefix|..];
      var sep := IndexOf(rest, ":");
      if sep <= 0 then None
      else
        var guildId := Trim(rest[..sep]);
        var channelId := Trim(rest[sep + 1..]);
        if guildId == [] || channelId == [] then None
        else
          ParsedParts(rest, sep);
          Some(DiscordChannel(guildId, channelId))
  }

  /** The guild part ends before the first ':' and so holds none; both parts
      are their own trims. */
  lemma ParsedParts(rest: string, sep: int)
    requires sep == IndexOf(rest, ":") && sep > 0
    ensures ':' !in Trim(rest[..sep])
    ensures Trim(Trim(rest[..sep])) == Trim(rest[..sep])
    ensures Trim(Trim(rest[sep + 1..])) == Trim(rest[sep + 1..])
  {
    forall j | 0 <= j < sep ensures rest[..sep][j] != ':' {
      assert !OccursAt(rest, ":", j);
      assert rest[j..j + 1] == [rest[j]];
    }
    TrimKeepsCharAbsent(rest[..sep], ':');
    TrimIdempotent(rest[..sep]);
    TrimIdempotent(rest[sep + 1..]);
  }

  /** Parsing the actor id the Discord adapter builds gives back its guild and
      channel, for a trimmed, non-empty guild without ':' and a trimmed,
      non-empty channel (which may hold ':'). */
  lemma ParseActorIdRoundTrip(guildId: string, channelId: string)
    requires Tidy(guildId) && ':' !in guildId && Tidy(channelId)
    ensures ParseDiscordActorId(Discord.ActorId(guildId, channelId)) == Some(DiscordChannel(guildId, channelId))
  {
    var a := Discord.ActorId(guildId, channelId);
    var rest := guildId + ":" + channelId;
    assert a[|DiscordPrefix|..] == rest;
    FirstSeparator(guildId, ':', channelId);
    assert rest[..|guildId|] == guildId;
    assert rest[|guildId| + 1..] == channelId;
  }

  /** The inbound payload of a Discord message routes replies back to the
      channel it came from, whenever its guild id holds no ':'. */
  lemma PayloadActorIdRoundTrip(m: Discord.Message, instanceId: string)
    requires Discord.NormalizeInboundMessage(m, instanceId).Some?
    requires ':' !in Trim(m.guildId)
    ensures ParseDiscordActorId(Discord.NormalizeInboundMessage(m, instanceId).value.actorId)
            == Some(DiscordChannel(Trim(m.guildId), Trim(m.channelId)))
  {
    TrimIdempotent(m.guildId);
    TrimIdempotent(m.channelId);
    ParseActorIdRoundTrip(Trim(m.guildId), Trim(m.channelId));
  }

  /** A call an adapter receives. */
  datatype Delivery =
    | DiscordText(channelId: string, text: string)
    | WhatsAppText(to: string, text: string)
    | WhatsAppImage(to: string, base64: string, caption: string)

  /** `sendMessage(actorId, text)`: a Discord actor id goes to the Discord
      adapter with its channel id, or fails when it does not parse; any other
      id goes to the WhatsApp adapter unchanged. */
  function RouteMessage(actorId: string, text: string): (r: Result<Delivery, string>)
    ensures !IsDiscordActorId(actorId) ==> r == Success(WhatsAppText(actorId, text))
    ensures IsDiscordActorId(actorId) && ParseDiscordActorId(actorId).None? ==>
              r == Failure("Invalid Discord actorId: " + actorId)
    ensures IsDiscordActorId(actorId) && ParseDiscordActorId(actorId).Some? ==>
              r == Success(DiscordText(ParseDiscordActorId(actorId).value.channelId, text))
  {
    if IsDiscordActorId(actorId) then
      match ParseDiscordActorId(actorId)
      case None => Failure("Invalid Discord actorId: " + actorId)
      case Some(parsed) => Success(DiscordText(parsed.channelId, text))
    else Success(WhatsAppText(actorId, text))
  }

  /** The fallback text sent to a Discord actor in place of an image, split
      around the word "Discord" it names. Its first four characters are the
      ones the source file holds: the UTF-8 bytes of a paperclip emoji read
      back as Windows-1252 text. */
  const ImageFallbackHead: string := "\U{F0}\U{178}\U{201C}\U{17D} Evidencia de imagem capturada, mas envio de imagem no "
  const ImageFallbackTail: string :=
    " ainda nao esta habilitado nesta versao. Se precisar, use o canal WhatsApp para receber os prints."
  const ImageFallback: string := ImageFallbackHead + "Discord" + ImageFallbackTail

  /** The text a Discord actor receives in place of an image. */
  function ImageFallbackText(caption: string): (t: string)
    ensures StartsWith(t, ImageFallback)
    ensures caption != [] ==> EndsWith(t, caption)
    ensures caption == [] ==> t == ImageFallback
  {
    if caption != [] then ImageFallback + "\n\nLegenda: " + caption else ImageFallback
  }

  /** `sendImage(actorId, { base64, caption })`: a Discord actor gets the
      fallback text, through `sendMessage`; any other actor gets the image. */
  function RouteImage(actorId: string, base64: string, caption: string): (r: Result<Delivery, string>)
    ensures !IsDiscordActorId(actorId) ==> r == Success(WhatsAppImage(actorId, base64, caption))
    ensures IsDiscordActorId(actorId) ==> r == RouteMessage(actorId, ImageFallbackText(caption))
  {
    if IsDiscordActorId(actorId) then RouteMessage(actorId, ImageFallbackText(caption))
    else Success(WhatsAppImage(actorId, base64, caption))
  }

  /** An image for a valid Discord actor becomes one text message to its
      channel that names Discord and carries the caption. */
  lemma DiscordImageIsText(actorId: string, base64: string, caption: string)
    requires IsDiscordActorId(actorId) && ParseDiscordActorId(actorId).Some?
    ensures RouteImage(actorId, base64, caption).Success?
    ensures RouteImage(actorId, base64, caption).value.DiscordText?
    ensures RouteImage(actorId, base64, caption).value.channelId == ParseDiscordActorId(actorId).value.channelId
    ensures Contains(RouteImage(actorId, base64, caption).value.text, "Discord")
    ensures caption != [] ==> Contains(RouteImage(actorId, base64, caption).value.text, caption)
  {
    ContainsMiddle(ImageFallbackHead, "Discord", ImageFallbackTail);
    if caption != [] {
      ContainsExtends(ImageFallback, "\n\nLegenda: ", "Discord");
      ContainsExtends(ImageFallback + "\n\nLegenda: ", caption, "Discord");
      EndsWithContains(ImageFallbackText(caption), caption);
    }
  }

  /** An occurrence survives appending text. */
  lemma ContainsExtends(s: string, t: string, p: string)
    requires Contains(s, p)
    ensures Contains(s + t, p)
  {
    ContainsIff(s, p);
    ContainsIff(s + t, p);
    var i :| OccursAt(s, p, i);
    assert (s + t)[i..i + |p|] == s[i..i + |p|];
    assert OccursAt(s + t, p, i);
  }

  /** A suffix occurs in the text it ends. */
  lemma EndsWithContains(s: string, p: string)
    requires EndsWith(s, p)
    ensures Contains(s, p)
  {
    assert OccursAt(s, p, |s| - |p|);
    ContainsIff(s, p);
  }

  /** An actor id that does not start with 'd', such as a phone number, goes
      to WhatsApp unchanged and is no Discord channel. */
  lemma PlainIdGoesToWhatsApp(actorId: string, text: string)
    requires actorId == [] || actorId[0] != 'd'
    ensures RouteMessage(actorId, text) == Success(WhatsAppText(actorId, text))
    ensures ParseDiscordActorId(actorId) == None
  {
    if |actorId| >= 3 {
      assert actorId[..3][0] != DiscordPrefix[0];
    }
  }

  /** A message for the actor id of a Discord channel reaches that channel. */
  lemma DiscordActorRoutesToChannel(guildId: string, channelId: string, text: string)
    requires Tidy(guildId) && ':' !in guildId && Tidy(channelId)
    ensures RouteMessage(Discord.ActorId(guildId, channelId), text) == Success(DiscordText(channelId, text))
  {
    ParseActorIdRoundTrip(guildId, channelId);
  }

  /** The router with the calls its adapters have received, in order. */
  class Messenger {
    var sent: seq<Delivery>

    constructor ()
      ensures sent == []
    {
      sent := [];
    }

    /** `sendMessage`: the routed delivery is recorded, or nothing is sent
        and the error is returned. */
    method SendMessage(actorId: string, text: string) returns (error: Option<string>)
      modifies this
      ensures RouteMessage(actorId, text).Failure? ==>
                error == Some(RouteMessage(actorId, text).error) && sent == old(sent)
      ensures RouteMessage(actorId, text).Success? ==>
                error == None && sent == old(sent) + [RouteMessage(actorId, text).value]
    {
      match RouteMessage(actorId, text)
      case Failure(e) =>
        error := Some(e);
      case Success(d) =>
        sent := sent + [d];
        error := None;
    }

    /** `sendImage`: a Discord actor is sent the fallback text through
        `SendMessage`; any other actor the image. */
    method SendImage(actorId: string, base64: string, caption: string) returns (error: Option<string>)
      modifies this
      ensures RouteImage(actorId, base64, caption).Failure? ==>
                error == Some(RouteImage(actorId, base64, caption).error) && sent == old(sent)
      ensures RouteImage(actorId, base64, caption).Success? ==>
                error == None && sent == old(sent) + [RouteImage(actorId, base64, caption).value]
    {
      if IsDiscordActorId(actorId) {
        error := SendMessage(actorId, ImageFallbackText(caption));
      } else {
        sent := sent + [WhatsAppImage(actorId, base64, caption)];
        error := None;
      }
    }
  }
}
