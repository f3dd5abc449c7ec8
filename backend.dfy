/**
 * The `/chat-audio` request handler and its transcription step
 * (backend/app.py, `transcribe_audio` and `chat_audio`), run against a host
 * whose working directory is a set of file paths and whose external calls
 * are recorded in order.
 */
module Backend {
  import opened Wrappers
  import opened Services
  import opened Prompt

  /** Where the upload is saved; one fixed name for every request. */
  const UploadPath := "temp_user_recording.m4a"
  /** Where the converter writes the 16 kHz mono wav; one fixed name for every request. */
  const WavPath := "temp_input.wav"

  const NoAudioMessage := "No audio file provided"
  const NoFileMessage := "No selected file"
  const NoSpeechMessage := "No speech detected. Try speaking louder."
  /** The fault raised when the first recognition result has no alternative. */
  const IndexErrorMessage := "list index out of range"

  /** The `audio` part of a multipart request. */
  datatype FilePart = FilePart(filename: string)

  /** The parts of a request the handler reads: the upload and two optional form fields. */
  datatype Request = Request(audio: Option<FilePart>, context: Option<string>, liveFeedback: Option<string>)

  datatype Response =
    | Ok(userText: string, reply: string, audio: string)  // 200 with "status": "success"
    | JsonError(status: int, error: string)              // {"error": ...} with the given status
    | Unhandled                                          // an exception left the handler: the framework's own 500 page

  /** The upload passes both checks: an `audio` part with a non-empty filename. */
  predicate HasFile(req: Request) {
    req.audio.Some? && req.audio.value.filename != ""
  }

  /**
   * What `transcribe_audio` ends with, given whether its input file exists,
   * how the converter ended and what the recognizer answered.
   */
  function TranscriptOutcome(inputExists: bool, converter: Converter, recognition: Recognition): (r: Exit<string>)
    ensures !inputExists || !converter.Converted? || recognition == Results([]) ==> r == Returned("")
    ensures r.Raised? <==>
              inputExists && converter.Converted? &&
              (recognition.RecognizeFault? ||
               (|recognition.results| > 0 && |recognition.results[0].alternatives| == 0))
    ensures inputExists && converter.Converted? && recognition.RecognizeFault? ==> r == Raised(recognition.message)
    ensures inputExists && converter.Converted? && recognition.Results? &&
            |recognition.results| > 0 && |recognition.results[0].alternatives| == 0 ==>
              r == Raised(IndexErrorMessage)
    ensures inputExists && converter.Converted? && recognition.Results? &&
            |recognition.results| > 0 && |recognition.results[0].alternatives| > 0 ==>
              r == Returned(recognition.results[0].alternatives[0].transcript)
    ensures r.Returned? && r.value != "" ==>
              inputExists && converter.Converted? && recognition.Results? &&
              |recognition.results| > 0 && |recognition.results[0].alternatives| > 0 &&
              r.value == recognition.results[0].alternatives[0].transcript
  {
    if !inputExists || !converter.Converted? then Returned("")
    else match recognition
      case RecognizeFault(message) => Raised(message)
      case Results(results) =>
        if |results| == 0 then Returned("")
        else if |results[0].alternatives| == 0 then Raised(IndexErrorMessage)
        else Returned(results[0].alternatives[0].transcript)
  }

  /** The transcript `chat_audio` goes on with, when transcription returns. */
  function Heard(converter: Converter, recognition: Recognition): string {
    match TranscriptOutcome(true, converter, recognition)
    case Returned(text) => text
    case Raised(_) => ""
  }

  /** The external calls made while transcribing the saved upload. */
  function TranscribeCalls(converter: Converter): seq<Call> {
    [RunConverter(UploadPath, WavPath)] + if converter.Converted? then [Recognize(WavPath)] else []
  }

  /** The external calls made while answering a non-empty transcript with `prompt`. */
  function DialogueCalls(prompt: string, generate: string -> Generation): seq<Call> {
    [Generate(prompt)] + if generate(prompt).Generated? then [Synthesize(generate(prompt).text)] else []
  }

  class Host {
    /** The paths that exist in the working directory. */
    var files: set<string>
    /** The external calls made so far, oldest first. */
    var calls: seq<Call>

    constructor (existing: set<string>)
      ensures files == existing && calls == []
    {
      files := existing;
      calls := [];
    }

    /**
     * Converts the file at `path` to the normalized wav and returns the first
     * alternative of the first recognition result; a missing input, a failed
     * or missing converter, or an empty result list give "". The wav is
     * removed only once the recognizer has answered.
     */
    method TranscribeAudio(path: string, converter: Converter, recognition: Recognition) returns (r: Exit<string>)
      modifies this
      ensures r == TranscriptOutcome(path in old(files), converter, recognition)
      ensures path !in old(files) ==> files == old(files) && calls == old(calls)
      ensures path in old(files) && !converter.Converted? ==>
                files == old(files) && calls == old(calls) + [RunConverter(path, WavPath)]
      ensures path in old(files) && converter.Converted? ==>
                calls == old(calls) + [RunConverter(path, WavPath), Recognize(WavPath)] &&
                files == if recognition.RecognizeFault? then old(files) + {WavPath} else old(files) - {WavPath}
    {
      if path !in files {
        return Returned("");
      }
      calls := calls + [RunConverter(path, WavPath)];
      if converter.NonZeroExit? || converter.NotFound? {
        return Returned("");
      }
      files := files + {WavPath};
      calls := calls + [Recognize(WavPath)];
      if recognition.RecognizeFault? {
        return Raised(recognition.message);
      }
      if WavPath in files {
        files := files - {WavPath};
      }
      var results := recognition.results;
      if |results| > 0 {
        if |results[0].alternatives| == 0 {
          return Raised(IndexErrorMessage);
        }
        return Returned(results[0].alternatives[0].transcript);
      }
      return Returned("");
    }

    /**
     * Handles one `POST /chat-audio`. The checks run in order (an `audio`
     * part, a non-empty filename, a non-empty transcript) and each rejects
     * with its own 400 before anything later happens; faults of the language
     * model or the synthesizer become a 500 carrying the fault's message; on
     * success the transcript and the reply are returned unchanged.
     */
    method ChatAudio(req: Request, converter: Converter, recognition: Recognition,
                     generate: string -> Generation, synthesize: string -> Synthesis)
      returns (resp: Response)
      modifies this
      // The two upload checks, in order, before any file or call.
      ensures req.audio.None? ==>
                resp == JsonError(400, NoAudioMessage) && files == old(files) && calls == old(calls)
      ensures req.audio.Some? && req.audio.value.filename == "" ==>
                resp == JsonError(400, NoFileMessage) && files == old(files) && calls == old(calls)
      // Files: the upload is left behind only when an exception escaped; the
      // wav is removed once the recognizer answered; nothing else changes.
      ensures HasFile(req) ==>
                (UploadPath in files <==> TranscriptOutcome(true, converter, recognition).Raised?) &&
                (WavPath in files <==>
                   if converter.Converted? then recognition.RecognizeFault? else WavPath in old(files)) &&
                files - {UploadPath, WavPath} == old(files) - {UploadPath, WavPath}
      // Calls, and the response, for an accepted upload.
      ensures HasFile(req) && TranscriptOutcome(true, converter, recognition).Raised? ==>
                resp == Unhandled && calls == old(calls) + TranscribeCalls(converter)
      ensures HasFile(req) && TranscriptOutcome(true, converter, recognition) == Returned("") ==>
                resp == JsonError(400, NoSpeechMessage) && calls == old(calls) + TranscribeCalls(converter)
      ensures HasFile(req) && TranscriptOutcome(true, converter, recognition).Returned? && Heard(converter, recognition) != "" ==>
                var prompt := PromptFor(req.context, req.liveFeedback, Heard(converter, recognition));
                && calls == old(calls) + TranscribeCalls(converter) + DialogueCalls(prompt, generate)
                && (generate(prompt).GenerateFault? ==> resp == JsonError(500, generate(prompt).message))
                && (generate(prompt).Generated? ==>
                      var reply := generate(prompt).text;
                      && (synthesize(reply).SynthesizeFault? ==> resp == JsonError(500, synthesize(reply).message))
                      && (synthesize(reply).Synthesized? ==>
                            resp == Ok(Heard(converter, recognition), reply, synthesize(reply).audio)))
      // No rejection with 400 reaches the language model or the synthesizer.
      ensures resp.JsonError? && resp.status == 400 ==> NoDialogueCalls(calls[|old(calls)|..])
      // A successful response repeats the transcript and the reply verbatim.
      ensures resp.Ok? ==>
                && HasFile(req)
                && TranscriptOutcome(true, converter, recognition) == Returned(resp.userText)
                && resp.userText != ""
                && generate(PromptFor(req.context, req.liveFeedback, resp.userText)) == Generated(resp.reply)
                && synthesize(resp.reply) == Synthesized(resp.audio)
    {
      if req.audio.None? {
        return JsonError(400, NoAudioMessage);
      }
      var audioFile := req.audio.value;
      if audioFile.filename == "" {
        return JsonError(400, NoFileMessage);
      }

      assert UploadPath != WavPath;
      files := files + {UploadPath};
      var userText := TranscribeAudio(UploadPath, converter, recognition);
      assert calls == old(calls) + TranscribeCalls(converter);
      if userText.Raised? {
        return Unhandled;
      }

      if UploadPath in files {
        files := files - {UploadPath};
      }

      if userText.value == "" {
        assert calls[|old(calls)|..] == TranscribeCalls(converter);
        return JsonError(400, NoSpeechMessage);
      }

      assert Heard(converter, recognition) == userText.value;
      resp := Answer(userText.value, req.context, req.liveFeedback, generate, synthesize);
    }

    /**
     * The guarded part of the handler, for a non-empty transcript: picks the
     * persona, builds the prompt, asks the language model and the
     * synthesizer, and turns a fault of either into a 500 with its message.
     */
    method Answer(userText: string, contextField: Option<string>, feedbackField: Option<string>,
                  generate: string -> Generation, synthesize: string -> Synthesis)
      returns (resp: Response)
      modifies this
      ensures files == old(files)
      ensures var prompt := PromptFor(contextField, feedbackField, userText);
              && calls == old(calls) + DialogueCalls(prompt, generate)
              && (generate(prompt).GenerateFault? ==> resp == JsonError(500, generate(prompt).message))
              && (generate(prompt).Generated? ==>
                    var reply := generate(prompt).text;
                    && (synthesize(reply).SynthesizeFault? ==> resp == JsonError(500, synthesize(reply).message))
                    && (synthesize(reply).Synthesized? ==> resp == Ok(userText, reply, synthesize(reply).audio)))
    {
      var context := contextField.GetOr("waiter");
      var liveFeedback := feedbackField == Some("true");

      var baseRole := Tutor;
      if context == "waiter" {
        baseRole := Waiter;
      } else if context == "doctor" {
        baseRole := Doctor;
      } else if context == "grocery" {
        baseRole := Cashier;
      }
      assert baseRole == RequestRole(contextField);
      assert liveFeedback == FeedbackMode(feedbackField);
      var prompt := BuildPrompt(baseRole, liveFeedback, userText);
      assert prompt == PromptFor(contextField, feedbackField, userText);

      calls := calls + [Generate(prompt)];
      var generation := generate(prompt);
      if generation.GenerateFault? {
        return JsonError(500, generation.message);
      }
      var aiReply := generation.text;

      calls := calls + [Synthesize(aiReply)];
      var synthesis := synthesize(aiReply);
      if synthesis.SynthesizeFault? {
        return JsonError(500, synthesis.message);
      }

      return Ok(userText, aiReply, synthesis.audio);
    }
  }
}
