/**
 * What the handler sees of the outside world: the outcome of each external
 * step (the audio converter, speech recognition, text generation, speech
 * synthesis), the log of external calls, and Python's two ways out of a
 * function (a return or an exception).
 */
module Services {

  /** How the converter process ended. */
  datatype Converter =
    | Converted            // exit status 0, the normalized wav file was written
    | NonZeroExit          // the process ran and failed
    | NotFound             // the executable is missing (FileNotFoundError)

  /** One alternative transcription inside a recognition result. */
  datatype Alternative = Alternative(transcript: string)

  /** One recognition result with its alternatives, best first. */
  datatype SpeechResult = SpeechResult(alternatives: seq<Alternative>)

  /** What the speech recognizer answers for the normalized audio. */
  datatype Recognition =
    | Results(results: seq<SpeechResult>)
    | RecognizeFault(message: string)

  /** What the language model answers for a prompt. */
  datatype Generation =
    | Generated(text: string)
    | GenerateFault(message: string)

  /** What the synthesizer answers for a reply: the audio, already base64 text, or a fault. */
  datatype Synthesis =
    | Synthesized(audio: string)
    | SynthesizeFault(message: string)

  /** The external actions a request can cause, in the order they happen. */
  datatype Call =
    | RunConverter(input: string, output: string)
    | Recognize(audioPath: string)
    | Generate(prompt: string)
    | Synthesize(text: string)

  /** How a Python function ends: it returns a value or raises a fault with a message. */
  datatype Exit<+T> = Returned(value: T) | Raised(fault: string)

  /** True when the calls include neither text generation nor speech synthesis. */
  predicate NoDialogueCalls(calls: seq<Call>) {
    forall i :: 0 <= i < |calls| ==> !calls[i].Generate? && !calls[i].Synthesize?
  }
}
