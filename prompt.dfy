/**
 * Role resolution and prompt construction of the `/chat-audio` handler
 * (backend/app.py, lines 106-119): a pure function of the `context` form
 * field, the `liveFeedback` form field and the transcript.
 */
module Prompt {
  import opened Wrappers

  // The four persona sentences a prompt can start with.
  const Waiter := "You are a Dutch waiter."
  const Doctor := "You are a Dutch doctor."
  const Cashier := "You are a cashier."
  const Tutor := "You are a friendly Dutch tutor."

  /** The context values that select a persona other than the tutor. */
  const KnownContexts: set<string> := {"waiter", "doctor", "grocery"}

  // The fixed pieces around the transcript. The feedback template is split
  // where the quoted transcript begins and ends, so that the pieces the
  // lemmas below talk about are named.
  const NaturalLead := " Reply naturally in Dutch to: '"
  const LearnerNote := " The user is learning Dutch. "
  const SaidOpen := "They said: '"
  const SaidClose := "'"
  const CorrectInEnglish := "1. In ENGLISH, briefly correct grammar errors. "
  const ReplyInDutch := "2. Then reply in DUTCH. "
  const FormatRequest := "Format: [Feedback] [Reply]"

  /** The feedback template's text after the closing quote. */
  const AfterQuote := ". " + CorrectInEnglish + ReplyInDutch + FormatRequest

  /** Text between the role and the transcript. */
  function Lead(feedback: bool): string {
    if feedback then LearnerNote + SaidOpen else NaturalLead
  }

  /** Text after the transcript. */
  function Tail(feedback: bool): string {
    if feedback then SaidClose + AfterQuote else "'"
  }

  predicate StartsWith(s: string, prefix: string) {
    prefix <= s
  }

  predicate EndsWith(s: string, suffix: string) {
    |suffix| <= |s| && s[|s| - |suffix|..] == suffix
  }

  /** `part` occurs in `s` starting at index `k`. */
  predicate OccursAt(s: string, part: string, k: nat) {
    k + |part| <= |s| && s[k..k + |part|] == part
  }

  ghost predicate Contains(s: string, part: string) {
    exists k: nat :: OccursAt(s, part, k)
  }

  /** `first` occurs in `s`, and `second` occurs after it without overlapping. */
  ghost predicate OccursInOrder(s: string, first: string, second: string) {
    exists i: nat, j: nat :: OccursAt(s, first, i) && OccursAt(s, second, j) && i + |first| <= j
  }

  lemma StartsWithConcat3(a: string, b: string, c: string)
    ensures StartsWith(a + b + c, a)
  {
    assert (a + b + c)[..|a|] == a;
  }

  lemma EndsWithConcat(a: string, b: string)
    ensures EndsWith(a + b, b)
  {
    assert (a + b)[|a|..] == b;
  }

  lemma OccursInMiddle(a: string, b: string, c: string)
    ensures OccursAt(a + b + c, b, |a|)
  {
    assert (a + b + c)[|a|..|a| + |b|] == b;
  }

  lemma EndsWithTrans(s: string, t: string, u: string)
    requires EndsWith(s, t) && EndsWith(t, u)
    ensures EndsWith(s, u)
  {
    assert s[|s| - |u|..] == t[|t| - |u|..];
  }

  /** Regroups a feedback prompt around its quoted transcript `c + d + e`. */
  lemma RegroupQuote(a: string, b: string, c: string, d: string, e: string, f: string)
    ensures a + (b + c) + d + (e + f) == (a + b) + (c + d + e) + f
  {
  }

  /** Regroups a feedback prompt around the pieces of its tail. */
  lemma RegroupTail(a: string, b: string, c: string, d: string, e: string, f: string)
    ensures a + (b + (c + d + e + f)) == a + b + c + d + (e + f)
    ensures a + (b + (c + d + e + f)) == a + b + c + d + e + f
  {
  }

  /** The persona for a context value: the if/elif chain on exact string equality. */
  function BaseRole(context: string): (role: string)
    ensures role == Waiter <==> context == "waiter"
    ensures role == Doctor <==> context == "doctor"
    ensures role == Cashier <==> context == "grocery"
    ensures role == Tutor <==> context !in KnownContexts
  {
    if context == "waiter" then Waiter
    else if context == "doctor" then Doctor
    else if context == "grocery" then Cashier
    else Tutor
  }

  /**
   * The persona for the `context` form field; an absent field reads as
   * "waiter", so only a present but unrecognised value gives the tutor.
   */
  function RequestRole(context: Option<string>): (role: string)
    ensures context.None? ==> role == Waiter
    ensures role == Waiter <==> context.None? || context == Some("waiter")
    ensures role == Doctor <==> context == Some("doctor")
    ensures role == Cashier <==> context == Some("grocery")
    ensures role == Tutor <==> context.Some? && context.value !in KnownContexts
  {
    BaseRole(context.GetOr("waiter"))
  }

  /** Feedback mode is on only for the exact field value "true". */
  function FeedbackMode(liveFeedback: Option<string>): (on: bool)
    ensures liveFeedback.None? ==> !on
    ensures on ==> liveFeedback.value == "true"
    ensures liveFeedback == Some("true") ==> on
  {
    liveFeedback == Some("true")
  }

  /** One of the two prompt templates, with the transcript embedded verbatim. */
  function BuildPrompt(role: string, feedback: bool, transcript: string): (p: string)
    ensures StartsWith(p, role)
    ensures EndsWith(p, Tail(feedback))
  {
    StartsWithConcat3(role, Lead(feedback) + transcript, Tail(feedback));
    EndsWithConcat(role + Lead(feedback) + transcript, Tail(feedback));
    role + Lead(feedback) + transcript + Tail(feedback)
  }

  /** The feedback template ends with the request for the two-part format. */
  lemma FeedbackTailEndsWithFormat()
    ensures EndsWith(Tail(true), FormatRequest)
  {
    EndsWithConcat(SaidClose, AfterQuote);
    EndsWithConcat(". " + CorrectInEnglish + ReplyInDutch, FormatRequest);
    EndsWithTrans(Tail(true), AfterQuote, FormatRequest);
  }

  /** The prompt sent to the language model for the request's form fields and transcript. */
  function PromptFor(context: Option<string>, liveFeedback: Option<string>, transcript: string): (p: string)
    ensures StartsWith(p, RequestRole(context))
    ensures EndsWith(p, FormatRequest) <==> liveFeedback == Some("true")
    ensures liveFeedback != Some("true") ==> p == RequestRole(context) + NaturalLead + transcript + "'"
  {
    var feedback := FeedbackMode(liveFeedback);
    var p := BuildPrompt(RequestRole(context), feedback, transcript);
    FeedbackTailEndsWithFormat();
    if feedback then
      EndsWithTrans(p, Tail(true), FormatRequest);
      p
    else
      assert p[|p| - 1] == '\'' != FormatRequest[|FormatRequest| - 1];
      p
  }

  /**
   * Reads the transcript back out of a prompt built for `role` and `feedback`:
   * the text between the template's lead and tail, if `p` has that shape.
   */
  function QuotedText(role: string, feedback: bool, p: string): Option<string> {
    var head := role + Lead(feedback);
    var tail := Tail(feedback);
    if |head| + |tail| <= |p| && StartsWith(p, head) && EndsWith(p, tail)
    then Some(p[|head|..|p| - |tail|])
    else None
  }

  /** The transcript can be read back from every prompt, so it is embedded unchanged. */
  lemma {:induction false} QuotedTextRoundTrip(role: string, feedback: bool, transcript: string)
    ensures QuotedText(role, feedback, BuildPrompt(role, feedback, transcript)) == Some(transcript)
  {
    var p := BuildPrompt(role, feedback, transcript);
    var head := role + Lead(feedback);
    assert p == head + transcript + Tail(feedback);
    assert p[..|head|] == head;
    assert p[|head|..|p| - |Tail(feedback)|] == transcript;
  }

  /** Two transcripts give the same prompt under the same role and mode only if they are equal. */
  lemma PromptDeterminesTranscript(role: string, feedback: bool, t1: string, t2: string)
    requires BuildPrompt(role, feedback, t1) == BuildPrompt(role, feedback, t2)
    ensures t1 == t2
  {
    QuotedTextRoundTrip(role, feedback, t1);
    QuotedTextRoundTrip(role, feedback, t2);
  }

  /** A feedback prompt quotes the learner: it contains "They said: '" + transcript + "'". */
  lemma FeedbackPromptQuotesTranscript(role: string, transcript: string)
    ensures Contains(BuildPrompt(role, true, transcript), SaidOpen + transcript + SaidClose)
  {
    RegroupQuote(role, LearnerNote, SaidOpen, transcript, SaidClose, AfterQuote);
    OccursInMiddle(role + LearnerNote, SaidOpen + transcript + SaidClose, AfterQuote);
  }

  /**
   * A feedback prompt asks for both segments: an English grammar correction,
   * then a Dutch reply, in the bracketed two-part format.
   */
  lemma FeedbackPromptAsksForBothSegments(role: string, transcript: string)
    ensures Contains(BuildPrompt(role, true, transcript), CorrectInEnglish)
    ensures Contains(BuildPrompt(role, true, transcript), ReplyInDutch)
    ensures OccursInOrder(BuildPrompt(role, true, transcript), CorrectInEnglish, ReplyInDutch)
    ensures EndsWith(BuildPrompt(role, true, transcript), FormatRequest)
  {
    var a := role + Lead(true) + transcript + SaidClose;
    RegroupTail(role + Lead(true) + transcript, SaidClose, ". ", CorrectInEnglish, ReplyInDutch, FormatRequest);
    OccursInMiddle(a + ". ", CorrectInEnglish, ReplyInDutch + FormatRequest);
    OccursInMiddle(a + ". " + CorrectInEnglish, ReplyInDutch, FormatRequest);
    var i := |a + ". "|;
    assert OccursAt(BuildPrompt(role, true, transcript), CorrectInEnglish, i);
    assert OccursAt(BuildPrompt(role, true, transcript), ReplyInDutch, i + |CorrectInEnglish|);
  }

  /**
   * The doctor persona in feedback mode: the prompt opens with the doctor
   * sentence and asks for an English correction and a Dutch reply.
   */
  lemma DoctorFeedbackPrompt(transcript: string)
    ensures StartsWith(PromptFor(Some("doctor"), Some("true"), transcript), Doctor)
    ensures Contains(PromptFor(Some("doctor"), Some("true"), transcript), CorrectInEnglish)
    ensures Contains(PromptFor(Some("doctor"), Some("true"), transcript), ReplyInDutch)
  {
    FeedbackPromptAsksForBothSegments(Doctor, transcript);
  }
}
