/** Media helpers (src/services/media-utils.js): the file extension for a
    MIME type, a safe file name and the canonical text that stands for a
    received media message. */
module MediaUtils {
  import opened Strings

  // ---------------------------------------------------------------------
  // extFromMime

  /** The MIME type as the checks see it: lower-cased, then trimmed. */
  function MimeKey(mime: string): string
  {
    Trim(Lower(mime))
  }

  /** The extensions `extFromMime` can name. */
  const KnownExts: set<string> := {"bin", "png", "jpg", "webp", "gif", "ogg", "mp3", "m4a", "wav", "mp4", "mov", "pdf"}

  /** Whether the normalised type `m` holds a marker of extension `ext`:
      the text each check of `extFromMime` looks for. */
  predicate Marked(m: string, ext: string)
  {
    if ext == "png" then Contains(m, "png")
    else if ext == "jpg" then Contains(m, "jpeg") || Contains(m, "jpg")
    else if ext == "webp" then Contains(m, "webp")
    else if ext == "gif" then Contains(m, "gif")
    else if ext == "ogg" then Contains(m, "ogg")
    else if ext == "mp3" then Contains(m, "mpeg")
    else if ext == "m4a" then Contains(m, "mp4") || Contains(m, "m4a")
    else if ext == "wav" then Contains(m, "wav")
    else if ext == "mp4" then Contains(m, "video/mp4")
    else if ext == "mov" then Contains(m, "video/quicktime")
    else if ext == "pdf" then Contains(m, "pdf")
    else false
  }

  /** The place of each extension's check in `extFromMime`; "bin" comes
      last. */
  function Rank(ext: string): nat
  {
    if ext == "png" then 0 else if ext == "jpg" then 1 else if ext == "webp" then 2
    else if ext == "gif" then 3 else if ext == "ogg" then 4 else if ext == "mp3" then 5
    else if ext == "m4a" then 6 else if ext == "wav" then 7 else if ext == "mp4" then 8
    else if ext == "mov" then 9 else if ext == "pdf" then 10 else 11
  }

  /** `extFromMime`, as written: the extension of the first check whose
      marker the normalised type holds, "bin" for a blank type or when none
      does. The video check comes after the audio `mp4` check. */
  function ExtFromMime(mime: string): (r: string)
    ensures r in KnownExts
    ensures MimeKey(mime) == [] ==> r == "bin"
    ensures r != "bin" ==> Marked(MimeKey(mime), r)
    ensures MimeKey(mime) != [] ==>
      forall e :: Marked(MimeKey(mime), e) ==> r != "bin" && Rank(r) <= Rank(e)
  {
    ExtOfKey(MimeKey(mime))
  }

  /** The checks of `extFromMime` on a normalised type: the result is marked
      in `m` and no extension checked earlier is. */
  function ExtOfKey(m: string): (r: string)
    ensures r in KnownExts
    ensures m == [] ==> r == "bin"
    ensures r != "bin" ==> Marked(m, r)
    ensures m != [] ==> forall e :: Marked(m, e) ==> r != "bin" && Rank(r) <= Rank(e)
  {
    if m == [] then "bin"
    else if Contains(m, "png") then "png"
    else if Contains(m, "jpeg") || Contains(m, "jpg") then "jpg"
    else if Contains(m, "webp") then "webp"
    else if Contains(m, "gif") then "gif"
    else if Contains(m, "ogg") then "ogg"
    else if Contains(m, "mpeg") then "mp3"
    else if Contains(m, "mp4") || Contains(m, "m4a") then "m4a"
    else if Contains(m, "wav") then "wav"
    else if Contains(m, "video/mp4") then "mp4"
    else if Contains(m, "video/quicktime") then "mov"
    else if Contains(m, "pdf") then "pdf"
    else "bin"
  }

  /** The place of each check with the video check moved before the audio
      `mp4` check. */
  function IntendedRank(ext: string): nat
  {
    if ext == "mp4" then 6 else if ext == "m4a" then 7 else if ext == "wav" then 8
    else Rank(ext)
  }

  /** `extFromMime` with the video check placed before the audio `mp4` check,
      where it can take effect. */
  function ExtFromMimeIntended(mime: string): (r: string)
    ensures r in KnownExts
    ensures MimeKey(mime) == [] ==> r == "bin"
    ensures r != "bin" ==> Marked(MimeKey(mime), r)
    ensures MimeKey(mime) != [] ==>
      forall e :: Marked(MimeKey(mime), e) ==> r != "bin" && IntendedRank(r) <= IntendedRank(e)
  {
    IntendedExtOfKey(MimeKey(mime))
  }

  function IntendedExtOfKey(m: string): (r: string)
    ensures r in KnownExts
    ensures m == [] ==> r == "bin"
    ensures r != "bin" ==> Marked(m, r)
    ensures m != [] ==> forall e :: Marked(m, e) ==> r != "bin" && IntendedRank(r) <= IntendedRank(e)
  {
    if m == [] then "bin"
    else if Contains(m, "png") then "png"
    else if Contains(m, "jpeg") || Contains(m, "jpg") then "jpg"
    else if Contains(m, "webp") then "webp"
    else if Contains(m, "gif") then "gif"
    else if Contains(m, "ogg") then "ogg"
    else if Contains(m, "mpeg") then "mp3"
    else if Contains(m, "video/mp4") then "mp4"
    else if Contains(m, "mp4") || Contains(m, "m4a") then "m4a"
    else if Contains(m, "wav") then "wav"
    else if Contains(m, "video/quicktime") then "mov"
    else if Contains(m, "pdf") then "pdf"
    else "bin"
  }

  /** The extension checked at each place, so that `Rank` never gives two
      extensions the same place. */
  function ExtAtRank(k: nat): string
  {
    if k == 0 then "png" else if k == 1 then "jpg" else if k == 2 then "webp"
    else if k == 3 then "gif" else if k == 4 then "ogg" else if k == 5 then "mp3"
    else if k == 6 then "m4a" else if k == 7 then "wav" else if k == 8 then "mp4"
    else if k == 9 then "mov" else if k == 10 then "pdf" else "bin"
  }

  lemma RankInjective(a: string)
    requires a in KnownExts
    ensures ExtAtRank(Rank(a)) == a
  {
  }

  /** A marked extension with no marked extension checked before it is the
      answer. */
  lemma FirstMarkedWins(m: string, e: string)
    requires m != [] && e in KnownExts && Marked(m, e)
    requires forall d :: d in KnownExts && Rank(d) < Rank(e) ==> !Marked(m, d)
    ensures ExtOfKey(m) == e
  {
    var r := ExtOfKey(m);
    RankInjective(r);
    RankInjective(e);
  }

  /** The types of the media tests, whatever their letter case and
      surrounding blanks: the common image types and the common audio types,
      one with a codec parameter. */
  lemma MediaTestTypes(mime: string)
    ensures MimeKey(mime) == "image/png" ==> ExtFromMime(mime) == "png"
    ensures MimeKey(mime) == "image/jpeg" ==> ExtFromMime(mime) == "jpg"
    ensures MimeKey(mime) == "image/webp" ==> ExtFromMime(mime) == "webp"
    ensures MimeKey(mime) == "audio/ogg; codecs=opus" ==> ExtFromMime(mime) == "ogg"
    ensures MimeKey(mime) == "audio/mpeg" ==> ExtFromMime(mime) == "mp3"
    ensures MimeKey(mime) == "audio/mp4" ==> ExtFromMime(mime) == "m4a"
  {
    var m := MimeKey(mime);
    if m == "image/png" {
      PngKey(m);
    } else if m == "image/jpeg" {
      JpegKey(m);
    } else if m == "image/webp" {
      WebpKey(m);
    } else if m == "audio/ogg; codecs=opus" {
      OggKey(m);
    } else if m == "audio/mpeg" {
      MpegKey(m);
    } else if m == "audio/mp4" {
      Mp4AudioKey(m);
    }
  }

  lemma PngKey(m: string)
    requires m == "image/png"
    ensures ExtOfKey(m) == "png"
  {
    PngHolds(m);
  }

  lemma PngHolds(m: string)
    requires m == "image/png"
    ensures Contains(m, "png")
  {
    HoldsAt(m, "png", 6);
  }

  lemma JpegKey(m: string)
    requires m == "image/jpeg"
    ensures ExtOfKey(m) == "jpg"
  {
    JpegHolds(m);
    JpegLacks(m);
  }

  lemma JpegHolds(m: string)
    requires m == "image/jpeg"
    ensures Contains(m, "jpeg")
  {
    HoldsAt(m, "jpeg", 6);
  }

  lemma JpegLacks(m: string)
    requires m == "image/jpeg"
    ensures !Contains(m, "png")
  {
    AbsentByChar(m, "png", 'n');
  }

  lemma WebpKey(m: string)
    requires m == "image/webp"
    ensures ExtOfKey(m) == "webp"
  {
    WebpHolds(m);
    WebpLacks(m);
  }

  lemma WebpHolds(m: string)
    requires m == "image/webp"
    ensures Contains(m, "webp")
  {
    HoldsAt(m, "webp", 6);
  }

  lemma WebpLacks(m: string)
    requires m == "image/webp"
    ensures !Contains(m, "png") && !Contains(m, "jpeg") && !Contains(m, "jpg")
  {
    AbsentByChar(m, "png", 'n');
    AbsentByChar(m, "jpeg", 'j');
    AbsentByChar(m, "jpg", 'j');
  }

  lemma OggKey(m: string)
    requires m == "audio/ogg; codecs=opus"
    ensures ExtOfKey(m) == "ogg"
  {
    OggHolds(m);
    OggLacks(m);
    OggLacksGif(m);
  }

  lemma OggHolds(m: string)
    requires m == "audio/ogg; codecs=opus"
    ensures Contains(m, "ogg")
  {
    HoldsAt(m, "ogg", 6);
  }

  lemma OggLacks(m: string)
    requires m == "audio/ogg; codecs=opus"
    ensures !Contains(m, "png") && !Contains(m, "jpeg") && !Contains(m, "jpg") && !Contains(m, "webp")
  {
    NoPictureMarker(m);
  }

  lemma OggLacksGif(m: string)
    requires m == "audio/ogg; codecs=opus"
    ensures !Contains(m, "gif")
  {
    AbsentByChar(m, "gif", 'f');
  }

  lemma MpegKey(m: string)
    requires m == "audio/mpeg"
    ensures ExtOfKey(m) == "mp3"
  {
    MpegHolds(m);
    MpegLacks(m);
  }

  lemma MpegHolds(m: string)
    requires m == "audio/mpeg"
    ensures Contains(m, "mpeg")
  {
    HoldsAt(m, "mpeg", 6);
  }

  lemma MpegLacks(m: string)
    requires m == "audio/mpeg"
    ensures !Contains(m, "png") && !Contains(m, "jpeg") && !Contains(m, "jpg") && !Contains(m, "webp") && !Contains(m, "gif") && !Contains(m, "ogg")
  {
    NoPictureMarker(m);
    AbsentByChar(m, "gif", 'f');
    NoDoubleG(m);
  }

  lemma Mp4AudioKey(m: string)
    requires m == "audio/mp4"
    ensures ExtOfKey(m) == "m4a"
  {
    Mp4AudioHolds(m);
    Mp4AudioLacks(m);
  }

  lemma Mp4AudioHolds(m: string)
    requires m == "audio/mp4"
    ensures Contains(m, "mp4")
  {
    HoldsAt(m, "mp4", 6);
  }

  lemma Mp4AudioLacks(m: string)
    requires m == "audio/mp4"
    ensures !Contains(m, "png") && !Contains(m, "jpeg") && !Contains(m, "jpg") && !Contains(m, "webp") && !Contains(m, "gif") && !Contains(m, "ogg") && !Contains(m, "mpeg")
  {
    NoPictureMarker(m);
    AbsentByChar(m, "gif", 'g');
    AbsentByChar(m, "ogg", 'g');
    AbsentByChar(m, "mpeg", 'g');
  }

  /** `p` read at position `i` of `m` is held by `m`. */
  lemma HoldsAt(m: string, p: string, i: nat)
    requires i + |p| <= |m| && m[i..i + |p|] == p
    ensures Contains(m, p)
  {
    ContainsIff(m, p);
    assert OccursAt(m, p, i);
  }

  /** An audio type without 'n', 'j' or 'w' holds no image marker checked
      before "gif". */
  lemma NoPictureMarker(m: string)
    requires 'n' !in m && 'j' !in m && 'w' !in m
    ensures !Contains(m, "png") && !Contains(m, "jpeg") && !Contains(m, "jpg") && !Contains(m, "webp")
  {
    AbsentByChar(m, "png", 'n');
    AbsentByChar(m, "jpeg", 'j');
    AbsentByChar(m, "jpg", 'j');
    AbsentByChar(m, "webp", 'w');
  }

  /** "audio/mpeg" has no two 'g' in a row, so it does not hold "ogg". */
  lemma NoDoubleG(m: string)
    requires m == "audio/mpeg"
    ensures !Contains(m, "ogg")
  {
    ContainsIff(m, "ogg");
    forall i | 0 <= i && i + 3 <= |m| ensures !OccursAt(m, "ogg", i) {
      assert m[i + 2] != 'g' || m[i + 1] != 'g';
    }
  }

  /** Letter case never changes the answer. */
  lemma ExtFromMimeIgnoresCase(mime: string)
    ensures ExtFromMime(Lower(mime)) == ExtFromMime(mime)
  {
    LowerIdempotent(mime);
    assert MimeKey(Lower(mime)) == MimeKey(mime);
  }

  /** A text lacking one of the characters of `p` does not hold `p`. */
  lemma AbsentByChar(s: string, p: string, c: char)
    requires c in p && c !in s
    ensures !Contains(s, p)
  {
    ContainsIff(s, p);
  }

  /** "video/mp4" holds none of the patterns checked before the audio one. */
  lemma NoEarlierPattern()
    ensures var m := "video/mp4";
      !Contains(m, "png") && !Contains(m, "jpeg") && !Contains(m, "jpg") && !Contains(m, "webp")
      && !Contains(m, "gif") && !Contains(m, "ogg") && !Contains(m, "mpeg")
  {
    NoPicturePattern();
    NoSoundPattern();
  }

  lemma NoPicturePattern()
    ensures var m := "video/mp4";
      !Contains(m, "png") && !Contains(m, "jpeg") && !Contains(m, "jpg") && !Contains(m, "webp")
  {
    var m := "video/mp4";
    AbsentByChar(m, "png", 'n');
    AbsentByChar(m, "jpeg", 'j');
    AbsentByChar(m, "jpg", 'j');
    AbsentByChar(m, "webp", 'w');
  }

  lemma NoSoundPattern()
    ensures var m := "video/mp4";
      !Contains(m, "gif") && !Contains(m, "ogg") && !Contains(m, "mpeg")
  {
    var m := "video/mp4";
    AbsentByChar(m, "gif", 'g');
    AbsentByChar(m, "ogg", 'g');
    AbsentByChar(m, "mpeg", 'g');
  }

  /** "video/mp4" holds itself and "mp4". */
  lemma VideoMp4Holds()
    ensures Contains("video/mp4", "video/mp4") && Contains("video/mp4", "mp4")
  {
    ContainsMiddle("", "video/mp4", "");
    assert "" + "video/mp4" + "" == "video/mp4";
    ContainsTail("video/mp4", "video/", "mp4");
  }

  /** As written, no type is ever given the "mp4" extension: a type holding
      "video/mp4" holds "mp4" and is caught by the audio check first, so
      "video/mp4" itself is reported as "m4a". */
  lemma VideoMp4Unreachable(mime: string)
    ensures ExtFromMime(mime) != "mp4"
    ensures MimeKey(mime) == "video/mp4" ==> ExtFromMime(mime) == "m4a"
  {
    KeyNeverMp4(MimeKey(mime));
    NoEarlierPattern();
    VideoMp4Holds();
  }

  lemma KeyNeverMp4(m: string)
    ensures ExtOfKey(m) != "mp4"
  {
    if Contains(m, "video/mp4") {
      assert "video/" + "mp4" == "video/mp4";
      ContainsTail(m, "video/", "mp4");
    }
  }

  /** With the video check first, "video/mp4" gets "mp4". */
  lemma IntendedVideoMp4(mime: string)
    requires MimeKey(mime) == "video/mp4"
    ensures ExtFromMimeIntended(mime) == "mp4"
  {
    NoEarlierPattern();
    VideoMp4Holds();
  }

  /** Away from video types the two orders agree. */
  lemma IntendedAgreesOffVideo(mime: string)
    requires !Contains(MimeKey(mime), "video/mp4")
    ensures ExtFromMimeIntended(mime) == ExtFromMime(mime)
  {
    KeysAgreeOffVideo(MimeKey(mime));
  }

  lemma KeysAgreeOffVideo(m: string)
    requires !Contains(m, "video/mp4")
    ensures IntendedExtOfKey(m) == ExtOfKey(m)
  {
  }

  // ---------------------------------------------------------------------
  // safeFileName

  /** The characters a saved file name keeps: word characters (letters,
      digits, '_'), '.', '-', '(', ')', '+' and the space. */
  predicate FileNameChar(c: char)
  {
    'a' <= c <= 'z' || 'A' <= c <= 'Z' || '0' <= c <= '9' || c == '_'
    || c == '.' || c == '-' || c == '(' || c == ')' || c == '+' || c == ' '
  }

  predicate FileNameSafe(s: string)
  {
    forall i :: 0 <= i < |s| ==> FileNameChar(s[i])
  }

  /** The text after a leading run of characters that are not kept. */
  function SkipUnsafe(s: string): (r: string)
    ensures |r| <= |s| && (r == [] || FileNameChar(r[0]))
  {
    if s != [] && !FileNameChar(s[0]) then SkipUnsafe(s[1..]) else s
  }

  /** `replace(/[^\w.\-()+ ]+/g, '_')`: each run of characters that are
      not kept becomes a single '_'. */
  function Sanitise(s: string): (r: string)
    ensures FileNameSafe(r) && |r| <= |s|
    decreases |s|
  {
    if s == [] then []
    else if FileNameChar(s[0]) then [s[0]] + Sanitise(s[1..])
    else "_" + Sanitise(SkipUnsafe(s))
  }

  /** A name made only of kept characters is left as it is. */
  lemma {:induction false} SanitiseKeepsSafe(s: string)
    requires FileNameSafe(s)
    ensures Sanitise(s) == s
    decreases |s|
  {
    if s != [] {
      SanitiseKeepsSafe(s[1..]);
    }
  }

  /** The fallback base: trimmed, and "original" when it is blank or missing. */
  function FallbackName(fallbackBase: string): (r: string)
    ensures r != []
  {
    var fb := Trim(if fallbackBase == [] then "original" else fallbackBase);
    if fb == [] then "original" else fb
  }

  /** `safeFileName(fileName, fallbackBase)`; a missing argument is the empty
      string. */
  function SafeFileName(fileName: string, fallbackBase: string): (r: string)
    ensures IsBlank(fileName) ==> r == FallbackName(fallbackBase)
    ensures r == FallbackName(fallbackBase) || (0 < |r| <= 120 && FileNameSafe(r))
  {
    var raw := Trim(fileName);
    if raw == [] then FallbackName(fallbackBase)
    else
      var cleaned := Prefix(Sanitise(Basename(raw)), 120);
      if cleaned == [] then FallbackName(fallbackBase) else cleaned
  }

  /** A name that is already safe (short, trimmed, without '/' and with only
      kept characters) comes back unchanged. */
  lemma SafeFileNameKeepsSafe(name: string, fallbackBase: string)
    requires Tidy(name) && |name| <= 120 && FileNameSafe(name)
    ensures SafeFileName(name, fallbackBase) == name
  {
    assert '/' !in name by {
      forall i | 0 <= i < |name| ensures name[i] != '/' {
        assert FileNameChar(name[i]);
      }
    }
    BasenameOfPlain(name);
    SanitiseKeepsSafe(name);
    assert Prefix(name, 120) == name;
  }

  // ---------------------------------------------------------------------
  // buildCanonicalMediaMessage

  /** The fields of a received media message; the empty string stands for a
      missing (falsy) field. */
  datatype MediaFields = MediaFields(kind: string, caption: string, transcriptText: string, visionText: string,
                                     filePath: string, mimetype: string, messageId: string)

  const MediaInstruction: string := "Instrucao: use o conteudo acima para responder ou executar o que foi pedido via midia."

  function MediaHeader(kind: string): string
  {
    "[MIDIA: " + Upper(if kind == [] then "UNKNOWN" else kind) + "]"
  }

  function Optional(tag: string, value: string): seq<string>
  {
    if value == [] then [] else [tag + value]
  }

  function Present(value: string): nat { if value == [] then 0 else 1 }

  /** The parts of the canonical message, in order: the header, each field
      that is present with its tag, and the closing instruction. */
  function MediaParts(f: MediaFields): (parts: seq<string>)
    ensures |parts| == 2 + Present(f.messageId) + Present(f.caption) + Present(f.transcriptText)
                         + Present(f.visionText) + Present(f.mimetype) + Present(f.filePath)
    ensures parts[0] == MediaHeader(f.kind) && parts[|parts| - 1] == MediaInstruction
    ensures f.messageId != [] ==> "messageId: " + f.messageId in parts
    ensures f.caption != [] ==> "Legenda do usuario: " + f.caption in parts
    ensures f.transcriptText != [] ==> "Transcricao:\n" + f.transcriptText in parts
    ensures f.visionText != [] ==> "Descricao/identificacao:\n" + f.visionText in parts
    ensures f.mimetype != [] ==> "mimetype: " + f.mimetype in parts
    ensures f.filePath != [] ==> "Arquivo salvo em: " + f.filePath in parts
  {
    [MediaHeader(f.kind)]
      + Optional("messageId: ", f.messageId)
      + Optional("Legenda do usuario: ", f.caption)
      + Optional("Transcricao:\n", f.transcriptText)
      + Optional("Descricao/identificacao:\n", f.visionText)
      + Optional("mimetype: ", f.mimetype)
      + Optional("Arquivo salvo em: ", f.filePath)
      + [MediaInstruction]
  }

  /** `buildCanonicalMediaMessage`: the parts joined by blank lines. */
  function BuildCanonicalMediaMessage(f: MediaFields): string
  {
    Join(MediaParts(f), "\n\n")
  }

  /** A tagged part of a join holds its value. */
  lemma TaggedPartContained(parts: seq<string>, tag: string, value: string)
    requires tag + value in parts
    ensures Contains(Join(parts, "\n\n"), value)
  {
    var i :| 0 <= i < |parts| && parts[i] == tag + value;
    JoinHasPart(parts, "\n\n", i);
    var s := Join(parts, "\n\n");
    ContainsIff(s, tag + value);
    ContainsTail(s, tag, value);
  }

  /** The message starts with the header, ends with the instruction, and holds
      every field that is present. */
  lemma CanonicalMediaMessageShape(f: MediaFields)
    ensures var r := BuildCanonicalMediaMessage(f);
      StartsWith(r, MediaHeader(f.kind)) && EndsWith(r, MediaInstruction)
      && (f.messageId != [] ==> Contains(r, f.messageId))
      && (f.caption != [] ==> Contains(r, f.caption))
      && (f.transcriptText != [] ==> Contains(r, f.transcriptText))
      && (f.visionText != [] ==> Contains(r, f.visionText))
      && (f.mimetype != [] ==> Contains(r, f.mimetype))
      && (f.filePath != [] ==> Contains(r, f.filePath))
  {
    var parts := MediaParts(f);
    JoinStartsWithFirst(parts, "\n\n");
    JoinEndsWithLast(parts, "\n\n");
    if f.messageId != [] { TaggedPartContained(parts, "messageId: ", f.messageId); }
    if f.caption != [] { TaggedPartContained(parts, "Legenda do usuario: ", f.caption); }
    if f.transcriptText != [] { TaggedPartContained(parts, "Transcricao:\n", f.transcriptText); }
    if f.visionText != [] { TaggedPartContained(parts, "Descricao/identificacao:\n", f.visionText); }
    if f.mimetype != [] { TaggedPartContained(parts, "mimetype: ", f.mimetype); }
    if f.filePath != [] { TaggedPartContained(parts, "Arquivo salvo em: ", f.filePath); }
  }
}
