/** The `POST` handler of app/api/processaudio/route.ts: validate the upload, stage it in a
    temporary file, transcribe it, summarize and classify the transcript, clean up, answer.
    The transcription service and the text-generation model are oracles given as functions;
    the file system is a map from path to contents. */
module ProcessAudioRoute {
  import opened Base
  import Decimal

  type Store = map<string, seq<byte>>

  const NoFileMessage := "No file uploaded"
  const ErrorMessage := "Error processing audio"
  const TempFilePrefix := "uploaded-audio-"
  const TempFileSuffix := ".wav"
  // The prompt prefixes, each written with its first word apart: the verifier reads the
  // characters of a short literal but not of a long one.
  const SummaryPrefix := "Summarize" + " the following text in one or two sentences:\n\n"
  const MoodPrefix := "Analyze" + " the mood of the following text and return one of the following: Positive, Negative, or Neutral:\n\n"

  /** A value of a multipart form field: an uploaded file or a plain string. */
  datatype FormEntry = FileEntry(name: string, mimeType: string, bytes: seq<byte>) | TextEntry(text: string)

  /** The request body as `request.formData()` sees it: not parsable as form data, or a form
      whose `audio` field holds its first value or `null`. */
  datatype Body = Malformed | Form(audio: Option<FormEntry>)

  /** What `aai.transcripts.transcribe` does: reject, or resolve with a transcript whose
      `text` may be `null` (a transcript that ended in the error status has none). */
  datatype TranscribeReply = TranscribeRejected | Transcript(text: Option<string>)

  /** What `model.generateContent(prompt)` followed by `response.text()` does: throw, or give text. */
  datatype GenerateReply = GenerateRejected | Generated(text: string)

  /** The two external services; the transcription service reads the staged file's bytes. */
  datatype Services = Services(transcribe: seq<byte> -> TranscribeReply, generate: string -> GenerateReply)

  /** An external call, in the order the handler makes them. */
  datatype Call = Transcribe(audioPath: string) | Generate(prompt: string)

  /** A JSON response body. */
  datatype Json = Message(message: string) | Analysis(transcription: Option<string>, summary: string, mood: string)

  datatype Response = Response(status: nat, body: Json)

  const ServerError := Response(500, Message(ErrorMessage))

  /** JavaScript truthiness of `formData.get('audio')`: `null` and the empty string are falsy. */
  predicate Truthy(entry: Option<FormEntry>) {
    match entry
    case None => false
    case Some(TextEntry(t)) => t != ""
    case Some(FileEntry(_, _, _)) => true
  }

  /** The request is turned away with 400. */
  predicate NoFile(body: Body) {
    body.Form? && !Truthy(body.audio)
  }

  /** The `audio` field is a file, whose bytes get staged. */
  predicate HasUpload(body: Body) {
    body.Form? && body.audio.Some? && body.audio.value.FileEntry?
  }

  /** `${text}` in a template literal: `null` is written as "null". */
  function Interpolated(text: Option<string>): string {
    match text
    case Some(s) => s
    case None => "null"
  }

  /** The file name `uploaded-audio-${Date.now()}.wav`. */
  function TempFileName(now: nat): string {
    TempFilePrefix + Decimal.NatToString(now) + TempFileSuffix
  }

  /** `join(tmpdir(), name)`; `os.tmpdir()` gives a directory without a trailing separator. */
  function TempFilePath(tmpDir: string, now: nat): string
  {
    tmpDir + "/" + TempFileName(now)
  }

  /** The prompt `summarizeText` sends. */
  function SummarizePrompt(text: string): string {
    SummaryPrefix + text
  }

  /** The prompt `analyzeMood` sends. */
  function MoodPrompt(text: string): string {
    MoodPrefix + text
  }

  /** The text a prompt was built from, recovered by removing the given prefix. */
  function StripPrefix(prefix: string, prompt: string): (text: Option<string>)
    ensures text.Some? <==> |prefix| <= |prompt| && prompt[..|prefix|] == prefix
    ensures text.Some? ==> prompt == prefix + text.value
  {
    if |prefix| <= |prompt| && prompt[..|prefix|] == prefix then Some(prompt[|prefix|..]) else None
  }

  /** The calls a request with a file makes when nothing fails: transcription of the staged
      file, then the summary prompt, then the mood prompt, both over the same transcript text. */
  function Plan(path: string, text: string): seq<Call> {
    [Transcribe(path), Generate(SummarizePrompt(text)), Generate(MoodPrompt(text))]
  }

  /** The transcript text later prompts are built from, given the transcription reply. */
  function PromptText(reply: TranscribeReply): string {
    match reply
    case Transcript(t) => Interpolated(t)
    case TranscribeRejected => ""
  }

  /** `POST(request)`. `store` is the file system before the request, `tmpDir` the value of
      `tmpdir()`, `now` the value of `Date.now()`. Returns the response, the external calls in
      the order they were made, and the file system afterwards. Every exception reaches the one
      catch block, which answers 500 and removes nothing. */
  method Post(store: Store, body: Body, tmpDir: string, now: nat, svc: Services)
    returns (response: Response, calls: seq<Call>, store': Store)
    // the status is 400 exactly for a missing or empty `audio` field; nothing is staged or called
    ensures response.status == 400 <==> NoFile(body)
    ensures NoFile(body) ==> response.body == Message(NoFileMessage) && calls == [] && store' == store
    // a body that is not form data, or a string field, fails before anything is staged
    ensures !HasUpload(body) && !NoFile(body) ==> response == ServerError && calls == [] && store' == store
    // the only statuses
    ensures response.status in {200, 400, 500}
    ensures response.status == 500 ==> response == ServerError
    // with a file: the calls made are a prefix of the plan, each one only after the previous one succeeded
    ensures HasUpload(body) ==>
      var path := TempFilePath(tmpDir, now);
      var reply := svc.transcribe(body.audio.value.bytes);
      var text := PromptText(reply);
      1 <= |calls| <= 3 && calls == Plan(path, text)[..|calls|]
      && (|calls| == 1 <==> reply.TranscribeRejected?)
      && (|calls| == 3 <==> reply.Transcript? && svc.generate(SummarizePrompt(text)).Generated?)
    // the answer is 200 exactly when all three calls succeed, and then it holds their outputs verbatim
    ensures response.status == 200 <==>
      HasUpload(body) && svc.transcribe(body.audio.value.bytes).Transcript?
      && svc.generate(SummarizePrompt(PromptText(svc.transcribe(body.audio.value.bytes)))).Generated?
      && svc.generate(MoodPrompt(PromptText(svc.transcribe(body.audio.value.bytes)))).Generated?
    ensures response.status == 200 ==>
      var text := PromptText(svc.transcribe(body.audio.value.bytes));
      response.body == Analysis(svc.transcribe(body.audio.value.bytes).text,
                                svc.generate(SummarizePrompt(text)).text,
                                svc.generate(MoodPrompt(text)).text)
    // the store: the temp file is removed on success and left behind on any failure after staging
    ensures response.status == 200 ==> store' == store - {TempFilePath(tmpDir, now)}
    ensures response.status == 200 ==> (store' == store <==> TempFilePath(tmpDir, now) !in store)
    ensures HasUpload(body) && response.status == 500 ==>
      store' == store[TempFilePath(tmpDir, now) := body.audio.value.bytes]
  {
    calls := [];
    store' := store;
    // the body is read as form data and its `audio` field taken
    if body.Malformed? {
      response := ServerError;
      return;
    }
    var file := body.audio;
    if !Truthy(file) {
      response := Response(400, Message(NoFileMessage));
      return;
    }
    // a string value has no arrayBuffer(): the TypeError goes to the catch block
    if !file.value.FileEntry? {
      response := ServerError;
      return;
    }
    var buffer := file.value.bytes;
    var tempFilePath := TempFilePath(tmpDir, now);
    // the upload's bytes are staged at the temp path
    store' := store'[tempFilePath := buffer];

    // the staged file is sent for transcription
    calls := calls + [Transcribe(tempFilePath)];
    var transcript := svc.transcribe(store'[tempFilePath]);
    if transcript.TranscribeRejected? {
      response := ServerError;
      return;
    }
    var transcriptionText := transcript.text;

    // the summary prompt over the transcript text
    var summaryPrompt := SummarizePrompt(Interpolated(transcriptionText));
    calls := calls + [Generate(summaryPrompt)];
    var summary := svc.generate(summaryPrompt);
    if summary.GenerateRejected? {
      response := ServerError;
      return;
    }

    // the mood prompt over the same text
    var moodPrompt := MoodPrompt(Interpolated(transcriptionText));
    calls := calls + [Generate(moodPrompt)];
    var mood := svc.generate(moodPrompt);
    if mood.GenerateRejected? {
      response := ServerError;
      return;
    }

    // the temp file written above is removed; it is still in the store
    assert tempFilePath in store';
    store' := store' - {tempFilePath};
    response := Response(200, Analysis(transcriptionText, summary.text, mood.text));
  }

  // ---------------------------------------------------------------------------
  // Prompts
  // ---------------------------------------------------------------------------

  /** Each prompt is its fixed prefix followed by the text verbatim, so the text can be read back. */
  lemma PromptsCarryText(text: string)
    ensures StripPrefix(SummaryPrefix, SummarizePrompt(text)) == Some(text)
    ensures StripPrefix(MoodPrefix, MoodPrompt(text)) == Some(text)
  {
    assert SummarizePrompt(text)[..|SummaryPrefix|] == SummaryPrefix;
    assert MoodPrompt(text)[..|MoodPrefix|] == MoodPrefix;
  }

  /** Different texts give different prompts. */
  lemma PromptsInjective(a: string, b: string)
    ensures SummarizePrompt(a) == SummarizePrompt(b) <==> a == b
    ensures MoodPrompt(a) == MoodPrompt(b) <==> a == b
  {
    PromptsCarryText(a);
    PromptsCarryText(b);
  }

  /** A summary prompt is never a mood prompt, whatever the two texts. */
  lemma PromptsDistinct(a: string, b: string)
    ensures SummarizePrompt(a) != MoodPrompt(b)
  {
    assert SummaryPrefix[0] == 'S' && MoodPrefix[0] == 'A';
    assert SummarizePrompt(a)[0] == SummaryPrefix[0];
    assert MoodPrompt(b)[0] == MoodPrefix[0];
  }

  /** In the plan the transcription comes first, and the two model calls that follow are
      different prompts over the same transcript text, the summary one first. */
  lemma PlanOrder(path: string, text: string)
    ensures var plan := Plan(path, text);
      |plan| == 3 && plan[0] == Transcribe(path)
      && plan[1].Generate? && StripPrefix(SummaryPrefix, plan[1].prompt) == Some(text)
      && plan[2].Generate? && StripPrefix(MoodPrefix, plan[2].prompt) == Some(text)
      && plan[1] != plan[2]
  {
    PromptsCarryText(text);
    PromptsDistinct(text, text);
  }

  // ---------------------------------------------------------------------------
  // The temporary file's path
  // ---------------------------------------------------------------------------

  /** The path is the temp directory, the fixed name prefix, the timestamp's digits and `.wav`;
      nothing about the upload (its name or media type) enters it. */
  lemma TempFilePathShape(tmpDir: string, now: nat)
    ensures var path := TempFilePath(tmpDir, now);
      var start := |tmpDir| + 1 + |TempFilePrefix|;
      start + |TempFileSuffix| <= |path|
      && path[..start] == tmpDir + "/" + TempFilePrefix
      && path[|path| - |TempFileSuffix|..] == TempFileSuffix
      && path[start..|path| - |TempFileSuffix|] == Decimal.NatToString(now)
  {
    var path := TempFilePath(tmpDir, now);
    assert path == (tmpDir + "/" + TempFilePrefix) + Decimal.NatToString(now) + TempFileSuffix;
  }

  /** Two requests share a temp file exactly when their timestamps are equal. */
  lemma TempFilePathCollision(tmpDir: string, a: nat, b: nat)
    ensures TempFilePath(tmpDir, a) == TempFilePath(tmpDir, b) <==> a == b
  {
    if TempFilePath(tmpDir, a) == TempFilePath(tmpDir, b) {
      TempFilePathShape(tmpDir, a);
      TempFilePathShape(tmpDir, b);
      Decimal.NatToStringInjective(a, b);
    }
  }
}
