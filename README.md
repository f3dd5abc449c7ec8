# Dutch conversation-practice backend, modelled in Dafny

The backend answers one endpoint, `POST /chat-audio`. A learner uploads a
short recording; the handler saves it to a temporary file, converts it to a
16 kHz mono wav with an external converter, has a speech recognizer
transcribe it, builds a role-play prompt (waiter, doctor, cashier or tutor,
optionally asking for English grammar feedback first), sends the prompt to a
language model, has the reply synthesized to speech and returns the
transcript, the reply and the audio.

This project models the decision logic of that handler and proves what it
promises:

- `wrappers.dfy`: `Option`, for the optional form fields and upload part.
- `prompt.dfy` (module `Prompt`, pure): persona resolution from the
  `context` field, the feedback switch from the `liveFeedback` field and the
  two prompt templates, with lemmas that the transcript is embedded verbatim
  (it can be read back out), that a feedback prompt quotes the learner and
  asks for both segments, and that only the exact value `"true"` selects the
  feedback template.
- `services.dfy` (module `Services`): the outcomes of the external steps
  (converter exit, recognizer results or fault, model reply or fault,
  synthesizer audio or fault), the log of external calls, and `Exit`, a
  Python function's return-or-raise.
- `backend.dfy` (module `Backend`): a `Host` class whose `files` field is
  the set of paths in the working directory and whose `calls` field logs
  every external call in order. `TranscribeAudio` and `ChatAudio` update
  both step by step, as the handler does; their postconditions state the
  response, the new file set and the new call log for every input, so the
  order of the checks, the absence of calls after a rejection and the
  clean-up of the temporary files can be read off them.

Behaviour of the handler worth knowing:

- An absent `context` field reads as `"waiter"`, so it yields the waiter
  persona; only a present but unrecognised value gives the tutor.
- A missing input file, a failing converter and a missing converter all
  give the empty transcript, so the request ends with the 400 "No speech
  detected" response, not with a 500.
- The recognizer call runs outside the handler's `try` block. A recognizer
  fault, or a first result without any alternative (an index error), leaves
  the handler as an uncaught exception (`Unhandled`: the web framework's
  own 500 page, not the JSON error body), and the uploaded file (and, for a
  recognizer fault, the wav file) is left on disk.
- Only the filename of the upload is checked; an empty recording is not
  rejected before conversion.

## Model

| member | source | states |
|---|---|---|
| `Prompt.BaseRole` | backend/app.py:109-112 | the waiter, doctor and cashier sentences are chosen exactly when the context is "waiter", "doctor" or "grocery"; every other value gives the tutor sentence |
| `Prompt.RequestRole` | backend/app.py:106-112 | an absent `context` field gives the waiter persona; each persona is chosen exactly for its field value, and the tutor exactly for a present value outside the three known ones |
| `Prompt.FeedbackMode` | backend/app.py:107 | feedback is on exactly when the `liveFeedback` field is present and equal to "true": an absent field or any other value turns it off |
| `Prompt.BuildPrompt` | backend/app.py:114-119 | every prompt starts with the persona sentence and ends with its template's tail |
| `Prompt.PromptFor` | backend/app.py:106-119 | the prompt starts with the request's persona; it ends with "Format: [Feedback] [Reply]" if and only if `liveFeedback` is exactly "true"; otherwise it is the persona, " Reply naturally in Dutch to: '", the transcript and a closing quote |
| `Prompt.QuotedTextRoundTrip` | backend/app.py:115-119 | the transcript can be read back out of the prompt built from it, in both templates, so it is embedded unchanged |
| `Prompt.PromptDeterminesTranscript` | backend/app.py:115-119 | under one persona and one template, different transcripts give different prompts |
| `Prompt.FeedbackPromptQuotesTranscript` | backend/app.py:115 | a feedback prompt contains "They said: '" followed by the transcript and a closing quote |
| `Prompt.FeedbackPromptAsksForBothSegments` | backend/app.py:115-117 | a feedback prompt asks for an English grammar correction and, after it without overlap, a Dutch reply, and ends with the two-part format request |
| `Prompt.DoctorFeedbackPrompt` | backend/app.py:111-117 | with context "doctor" and feedback "true" the prompt opens with the doctor sentence and asks for both the English correction and the Dutch reply |
| `Backend.TranscriptOutcome` | backend/app.py:24-68 | a missing input, a failed or missing converter, or an empty result list give ""; a recognizer fault, or a first result without alternatives, raise and nothing else does (a recognizer fault with its own message, an empty alternative list with the index error); when the input exists, the conversion succeeds and the first result has an alternative, the result is exactly that first alternative's transcript, and every non-empty transcript comes from there |
| `Backend.Host.TranscribeAudio` | backend/app.py:24-68 | returns what `TranscriptOutcome` gives; nothing is run for a missing input; the converter is run before the recognizer, and the recognizer only after a successful conversion; the wav file is written by the conversion and removed exactly when the recognizer answered |
| `Backend.Host.ChatAudio` | backend/app.py:82-138 | a missing `audio` part, then an empty filename, are rejected with their own 400 messages and no file and no call; an empty transcript gives 400 "No speech detected. Try speaking louder." with no model or synthesizer call; the upload is removed unless transcription raised; the wav is left only after a recognizer fault or if it was there and no conversion ran; no other file changes; a success repeats the transcript and the reply verbatim |
| `Backend.Host.Answer` | backend/app.py:105-138 | the prompt sent is the one `PromptFor` gives; a model fault gives 500 with its message and no synthesis; a synthesis fault gives 500 with its message; otherwise the response carries the transcript, the unchanged reply and the audio |

## Left out

- Web routing, cross-origin headers, loading of environment settings and the host and port configuration: framework and process plumbing.
- The speech recognizer, the speech synthesizer and the language model are not modelled: each is an outcome supplied to the handler (the model and the synthesizer as functions of their text input, the recognizer as a fixed result for the upload), and their fixed configurations (languages, voice, model name, audio encodings) are not represented.
- The converter process and the bytes of the files: only the converter's outcome (success, non-zero exit, executable missing) and the set of existing paths are kept. A failed conversion is modelled as leaving the file set unchanged; a partial wav it might leave behind is not modelled.
- Base64 encoding of the synthesized audio: the synthesizer outcome carries the encoded text directly.
- A language-model answer without text (a missing `text` attribute): every `Generated` outcome carries a string.
- Faults of saving the upload or of removing files are not modelled; both are taken to succeed.
- Debug output.
- Concurrent requests: the model is sequential, so the clash of the fixed temporary file names between simultaneous requests is not captured.
