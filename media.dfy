/**
 * `procesarMedia`: which attachment goes to the model, and the replacement of
 * audio by the output of `convertirAudioAMp3`. The download and the ffmpeg
 * run are outside the model; their outcomes are inputs.
 */
module Media {
  import opened Wrappers
  import opened JsText

  /** A downloaded `MessageMedia`: mime type, base64 data and an optional file name. */
  datatype MediaData = MediaData(mimetype: string, data: string, filename: Option<string>)

  /** The quoted message, as far as media goes: its `hasMedia` flag and what its download yields. */
  datatype Quoted = Quoted(hasMedia: bool, download: Option<MediaData>)

  /**
   * A message's media: its `hasMedia` flag, what `downloadMedia()` yields
   * (`None` for `undefined`), and the quoted message when `hasQuotedMsg`.
   */
  datatype Attachments = Attachments(hasMedia: bool, download: Option<MediaData>, quoted: Option<Quoted>)

  /** The message's own media first; otherwise the quoted message's media; otherwise none. */
  function SelectMedia(a: Attachments): Option<MediaData> {
    if a.hasMedia then a.download
    else if a.quoted.Some? && a.quoted.value.hasMedia then a.quoted.value.download
    else None
  }

  /** The guard for conversion: the mime type starts with "audio" or contains "ogg". */
  predicate IsAudioLike(mimetype: string) {
    StartsWith(mimetype, "audio") || Includes(mimetype, "ogg")
  }

  /** The value `convertirAudioAMp3` resolves with, given the base64 of the mp3 file. */
  function Mp3(data: string): MediaData {
    MediaData("audio/mp3", data, Some("audio.mp3"))
  }

  /**
   * The media sent to the model. `conversion` is the outcome of the ffmpeg
   * conversion: `Some(base64)` when the promise resolves, `None` when it
   * rejects; it is only consulted for audio-like media.
   */
  function ProcesarMedia(a: Attachments, conversion: Option<string>): Option<MediaData> {
    var media := SelectMedia(a);
    if media.Some? && IsAudioLike(media.value.mimetype) then
      match conversion
      case Some(mp3) => Some(Mp3(mp3))
      case None => media
    else media
  }

  /** The converted media is itself audio: it starts with "audio". */
  lemma Mp3IsAudio(data: string)
    ensures StartsWith(Mp3(data).mimetype, "audio") && IsAudioLike(Mp3(data).mimetype)
  {
    assert Mp3(data).mimetype[..5] == "audio";
  }

  /** Media is present after processing exactly when some was selected: processing never drops it. */
  lemma ProcesarMediaKeepsPresence(a: Attachments, conversion: Option<string>)
    ensures ProcesarMedia(a, conversion).Some? <==> SelectMedia(a).Some?
  {
  }

  /** Media that is not audio-like is passed on unchanged, whatever the converter would do. */
  lemma ProcesarMediaPassesOtherMedia(a: Attachments, conversion: Option<string>)
    requires SelectMedia(a).Some? ==> !IsAudioLike(SelectMedia(a).value.mimetype)
    ensures ProcesarMedia(a, conversion) == SelectMedia(a)
  {
  }

  /** Audio whose conversion fails is passed on as it was downloaded: a fallback, not an error. */
  lemma ProcesarMediaFallsBack(a: Attachments)
    ensures ProcesarMedia(a, None) == SelectMedia(a)
  {
  }

  /** Audio whose conversion succeeds is replaced by the mp3, and stays audio. */
  lemma ProcesarMediaNormalizesAudio(a: Attachments, mp3: string)
    requires SelectMedia(a).Some? && IsAudioLike(SelectMedia(a).value.mimetype)
    ensures ProcesarMedia(a, Some(mp3)) == Some(Mp3(mp3))
    ensures StartsWith(ProcesarMedia(a, Some(mp3)).value.mimetype, "audio")
  {
    Mp3IsAudio(mp3);
  }

  /** A voice note ("audio/ogg; codecs=opus") is audio-like, and so is any "application/ogg". */
  lemma VoiceNoteIsAudioLike()
    ensures IsAudioLike("audio/ogg; codecs=opus")
    ensures IsAudioLike("application/ogg")
  {
    assert "audio/ogg; codecs=opus"[..5] == "audio";
    assert OccursAt("application/ogg", "ogg", 12);
    IncludesAt("application/ogg", "ogg");
  }

  /** The message's own attachment wins over the quoted one. */
  lemma OwnMediaFirst(a: Attachments)
    requires a.hasMedia
    ensures SelectMedia(a) == a.download
  {
  }
}
