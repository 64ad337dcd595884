/** The `geminiPayload` array the handler builds for one query. */
module Request {
  import opened Wrappers
  import opened JsText
  import opened Media

  /** One element of the payload: an `inlineData` object or a plain string. */
  datatype Part = InlineData(data: string, mimeType: string) | Text(text: string)

  /** The system-context line naming the resolved sender. */
  function ContextLine(numero: string, nombre: string): string {
    "[Sistema: Mensaje de +" + numero + ", nombre \"" + nombre + "\"].\n"
  }

  /** The instruction used for media sent without text: audio, then image, then any other file. */
  function DefaultPrompt(mimetype: string): string {
    if StartsWith(mimetype, "audio") then "Transcribe este audio y responde."
    else if StartsWith(mimetype, "image") then "Describe esta imagen."
    else "Analiza este archivo."
  }

  /**
   * The payload: the media part first when there is media, then the text part,
   * which is the context line followed by the query, or, for media without a
   * query, by the default prompt for its type; nothing for neither.
   */
  function Payload(context: string, query: string, media: Option<MediaData>): (p: seq<Part>)
    ensures |p| <= 2
    ensures |p| == (if media.Some? then 1 else 0) + (if query != "" || media.Some? then 1 else 0)
    ensures media.Some? ==> p[0] == InlineData(media.value.data, media.value.mimetype)
    ensures forall i :: 0 <= i < |p| && p[i].InlineData? ==> i == 0
    ensures query != "" ==> p[|p| - 1] == Text(context + query)
    ensures query == "" && media.Some? ==> p[|p| - 1] == Text(context + DefaultPrompt(media.value.mimetype))
  {
    var mediaPart := if media.Some? then [InlineData(media.value.data, media.value.mimetype)] else [];
    var textPart :=
      if query != "" then [Text(context + query)]
      else if media.Some? then [Text(context + DefaultPrompt(media.value.mimetype))]
      else [];
    mediaPart + textPart
  }

  /**
   * Builds the payload by pushing onto an initially empty array, as the
   * handler does.
   */
  method BuildPayload(context: string, query: string, media: Option<MediaData>) returns (p: seq<Part>)
    ensures p == Payload(context, query, media)
  {
    p := [];
    if media.Some? {
      p := p + [InlineData(media.value.data, media.value.mimetype)];
    }
    if query != "" {
      p := p + [Text(context + query)];
    } else if media.Some? {
      var prompt := context;
      if StartsWith(media.value.mimetype, "audio") {
        prompt := prompt + "Transcribe este audio y responde.";
      } else if StartsWith(media.value.mimetype, "image") {
        prompt := prompt + "Describe esta imagen.";
      } else {
        prompt := prompt + "Analiza este archivo.";
      }
      p := p + [Text(prompt)];
    }
  }

  /** A query with no media is sent as a single text part: the context line and the query. */
  lemma TextOnlyPayload(context: string, query: string)
    requires query != ""
    ensures Payload(context, query, None) == [Text(context + query)]
  {
  }

  /** Converted audio sent without text gets the transcription prompt. */
  lemma ConvertedAudioIsTranscribed(context: string, a: Attachments, mp3: string)
    requires SelectMedia(a).Some? && IsAudioLike(SelectMedia(a).value.mimetype)
    ensures Payload(context, "", ProcesarMedia(a, Some(mp3)))
            == [InlineData(mp3, "audio/mp3"), Text(context + "Transcribe este audio y responde.")]
  {
    ProcesarMediaNormalizesAudio(a, mp3);
  }
}
