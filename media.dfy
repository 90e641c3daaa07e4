/**
 * Inbound messages and their modality (bot.py:27-56), and the replay verb
 * chosen for a stored file type (bot.py:102-117).
 */
module Media {
  import opened Wrappers

  type UserId = int
  /** Telegram's opaque reference to file content it holds. */
  type FileId = string

  /**
   * The fields of an incoming message that the upload handler looks at.
   * Each attachment is its `file_id`; `photo` lists every resolution the
   * platform offers, smallest first, and is empty when the message has none.
   */
  datatype Message = Message(
    sender: UserId,
    caption: Option<string>,
    document: Option<FileId>,
    photo: seq<FileId>,
    audio: Option<FileId>,
    video: Option<FileId>,
    voice: Option<FileId>,
    videoNote: Option<FileId>,
    animation: Option<FileId>,
    sticker: Option<FileId>)

  /** The file type tags in the order the upload handler tests them. */
  const Modalities: seq<string> :=
    ["document", "photo", "audio", "video", "voice", "video_note", "animation", "sticker"]

  /** The attachment of modality `Modalities[k]`, if the message carries one. */
  function Attachment(m: Message, k: nat): Option<FileId>
    requires k < |Modalities|
  {
    if k == 0 then m.document
    else if k == 1 then (if |m.photo| > 0 then Some(m.photo[|m.photo| - 1]) else None)
    else if k == 2 then m.audio
    else if k == 3 then m.video
    else if k == 4 then m.voice
    else if k == 5 then m.videoNote
    else if k == 6 then m.animation
    else m.sticker
  }

  /** What the upload handler stages: a file reference and its type tag. */
  datatype Upload = Upload(fileId: FileId, fileType: string)

  /**
   * The upload handler's if/elif chain: the first present attachment decides
   * the type; a photo contributes its last (largest) size; a message with
   * none of the eight is unsupported.
   */
  function Classify(m: Message): (r: Option<Upload>)
    ensures r.Some? ==> r.value.fileType in Modalities
  {
    if m.document.Some? then Some(Upload(m.document.value, "document"))
    else if |m.photo| > 0 then Some(Upload(m.photo[|m.photo| - 1], "photo"))
    else if m.audio.Some? then Some(Upload(m.audio.value, "audio"))
    else if m.video.Some? then Some(Upload(m.video.value, "video"))
    else if m.voice.Some? then Some(Upload(m.voice.value, "voice"))
    else if m.videoNote.Some? then Some(Upload(m.videoNote.value, "video_note"))
    else if m.animation.Some? then Some(Upload(m.animation.value, "animation"))
    else if m.sticker.Some? then Some(Upload(m.sticker.value, "sticker"))
    else None
  }

  /** The first modality present wins: earlier ones absent, modality `k` present. */
  lemma ClassifyFirstPresent(m: Message, k: nat)
    requires k < |Modalities| && Attachment(m, k).Some?
    requires forall j :: 0 <= j < k ==> Attachment(m, j).None?
    ensures Classify(m) == Some(Upload(Attachment(m, k).value, Modalities[k]))
  {
    if k > 0 { assert Attachment(m, 0).None?; }
    if k > 1 { assert Attachment(m, 1).None?; }
    if k > 2 { assert Attachment(m, 2).None?; }
    if k > 3 { assert Attachment(m, 3).None?; }
    if k > 4 { assert Attachment(m, 4).None?; }
    if k > 5 { assert Attachment(m, 5).None?; }
    if k > 6 { assert Attachment(m, 6).None?; }
  }

  /** A message is ignored exactly when it carries none of the eight attachments. */
  lemma ClassifyNoneIffNoAttachment(m: Message)
    ensures Classify(m).None? <==> forall k :: 0 <= k < |Modalities| ==> Attachment(m, k).None?
  {
    if Classify(m).None? {
      forall k | 0 <= k < |Modalities| ensures Attachment(m, k).None? { }
    } else {
      assert !Attachment(m, 0).None? || !Attachment(m, 1).None? || !Attachment(m, 2).None?
        || !Attachment(m, 3).None? || !Attachment(m, 4).None? || !Attachment(m, 5).None?
        || !Attachment(m, 6).None? || !Attachment(m, 7).None?;
    }
  }

  /** How a stored file is sent back to whoever opens its share link. */
  datatype Verb =
    | SendDocument | SendPhoto | SendAudio | SendVideo | SendVoice
    | SendVideoNote | SendAnimation | SendSticker

  /** The file type tag each verb replays. */
  function VerbTag(v: Verb): string {
    match v
    case SendDocument => "document"
    case SendPhoto => "photo"
    case SendAudio => "audio"
    case SendVideo => "video"
    case SendVoice => "voice"
    case SendVideoNote => "video_note"
    case SendAnimation => "animation"
    case SendSticker => "sticker"
  }

  /**
   * The retrieval dispatch on a stored type tag: seven tags have their own
   * verb, and every other string, "document" included, is sent as a document.
   */
  function VerbFor(fileType: string): (v: Verb)
    ensures v != SendDocument ==> VerbTag(v) == fileType
    ensures v == SendDocument <==> fileType !in Modalities[1..]
  {
    if fileType == "photo" then SendPhoto
    else if fileType == "audio" then SendAudio
    else if fileType == "video" then SendVideo
    else if fileType == "voice" then SendVoice
    else if fileType == "video_note" then SendVideoNote
    else if fileType == "animation" then SendAnimation
    else if fileType == "sticker" then SendSticker
    else SendDocument
  }

  /**
   * The dispatch is the inverse of the tagging: an uploaded modality is
   * replayed with its own verb, and each verb is reached from its own tag.
   */
  lemma VerbRoundTrip(fileType: string, v: Verb)
    ensures fileType in Modalities ==> VerbTag(VerbFor(fileType)) == fileType
    ensures VerbFor(VerbTag(v)) == v
  {
  }

  /** Video notes and stickers are sent without a caption; every other verb carries it. */
  predicate CarriesCaption(v: Verb) {
    v != SendVideoNote && v != SendSticker
  }

  /** One reply sent back by the retrieval handler. */
  datatype Replay = Replay(verb: Verb, fileId: FileId, caption: Option<string>)

  /** The reply for one stored file: its verb, its reference and, where the verb takes one, its caption. */
  function ReplayFor(fileId: FileId, fileType: string, caption: Option<string>): (r: Replay)
    ensures r.fileId == fileId
    ensures fileType in Modalities ==> VerbTag(r.verb) == fileType
    ensures fileType !in Modalities ==> r.verb == SendDocument
    ensures r.caption == (if fileType == "video_note" || fileType == "sticker" then None else caption)
  {
    var v := VerbFor(fileType);
    Replay(v, fileId, if CarriesCaption(v) then caption else None)
  }
}
