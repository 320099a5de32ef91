/**
 * The chat turn of the counselling assistant (app.py:126-168) and its admission guard (app.py:85-86).
 *
 * The session state is a `Session` object: the stored profile and the message list, which the
 * methods change in place. The completion service is an oracle from the outgoing message list to a
 * reply or a failure; the knowledge context comes from the `Knowledge` module.
 */
module Conversation {
  import opened Common
  import Knowledge

  /** Number of stored messages sent with each request (`messages[-5:]`, app.py:156). */
  const HistoryWindow: nat := 5

  datatype Role = System | User | Assistant

  /** One entry of the message list, `{"role": ..., "content": ...}`. */
  datatype Message = Message(role: Role, content: string)

  /** The admission form's answers (app.py:86). */
  datatype Profile = Profile(name: string, age: nat, education: string, gender: string)

  /** What the completion call gives back: the reply's content, or any exception on the way. */
  datatype CompletionOutcome = Completed(content: string) | CompletionFailed

  /** Everything a generation step consults besides the session: the `docs` directory, the library flag and the two oracles. */
  datatype Backend = Backend(
    dir: Knowledge.Directory,
    ragAvailable: bool,
    search: Knowledge.SemanticSearch,
    complete: seq<Message> -> CompletionOutcome)

  /** What one generation step did: nothing to answer, a reply appended, or an error shown. */
  datatype TurnOutcome = Idle | Replied(reply: string) | Failed

  datatype Turn = Turn(outcome: TurnOutcome, messages: seq<Message>)

  // ---------------------------------------------------------------------------------------------
  // Admission

  /** The guard of app.py:85: the form was submitted with a name and an education level. */
  predicate Admits(submitted: bool, name: string, education: string) {
    submitted && name != "" && education != ""
  }

  /** The stored profile after the admission form was handled. */
  function Admission(current: Option<Profile>, submitted: bool, name: string, age: nat,
                     education: string, gender: string): (r: Option<Profile>)
    ensures Admits(submitted, name, education) ==> r == Some(Profile(name, age, education, gender))
    ensures !Admits(submitted, name, education) ==> r == current
  {
    if Admits(submitted, name, education) then Some(Profile(name, age, education, gender)) else current
  }

  /** A profile is created only when the form was submitted with a non-empty name and education. */
  lemma ProfileOnlyWhenAdmitted(submitted: bool, name: string, age: nat, education: string, gender: string)
    ensures Admission(None, submitted, name, age, education, gender).Some?
            <==> submitted && name != "" && education != ""
  {
  }

  // ---------------------------------------------------------------------------------------------
  // System prompt and request assembly

  /** The prompt text before the user's name. */
  const PromptOpening: string := "\n            أنت مستشار نفسي خبير. التزم بالتعليمات التالية بدقة:\n            1. أجب حصراً وبناءً على المعلومات الواردة في المراجع المرفقة أدناه.\n            2. إذا لم تجد الإجابة في المراجع، قل بلباقة أنك لا تملك معلومة حول هذا الأمر في مصادرك الحالية.\n            3. خاطب المستخدم ("
  /** The prompt text between the name and the age. */
  const PromptAgeLead: string := ") بما يناسب عمره ("
  /** The prompt text between the age and the knowledge context. */
  const PromptReferencesLead: string := ") وجنسه.\n            \n            المراجع المتاحة:\n            "
  /** The indentation that closes the prompt after the knowledge context. */
  const PromptClosing: string := "\n            "

  function DecimalDigit(d: nat): (c: char)
    requires d < 10
    ensures '0' <= c <= '9'
  {
    "0123456789"[d]
  }

  /** The number a string of decimal digits denotes, most significant digit first. */
  function DigitsValue(s: string): nat
    requires forall i :: 0 <= i < |s| ==> '0' <= s[i] <= '9'
  {
    if s == [] then 0
    else DigitsValue(s[..|s| - 1]) * 10 + ((s[|s| - 1] as int) - ('0' as int))
  }

  /** Python's `str(n)` for a non-negative integer: the digits denoting `n`, without leading zeros. */
  function DecimalString(n: nat): (r: string)
    ensures |r| >= 1 && forall i :: 0 <= i < |r| ==> '0' <= r[i] <= '9'
    ensures DigitsValue(r) == n
    ensures |r| > 1 ==> r[0] != '0'
  {
    if n < 10 then [DecimalDigit(n)]
    else
      var r := DecimalString(n / 10) + [DecimalDigit(n % 10)];
      assert r[..|r| - 1] == DecimalString(n / 10);
      r
  }

  /** The fixed text of a persona prompt, around the three values it interpolates. */
  datatype PromptTemplate = PromptTemplate(opening: string, ageLead: string, referencesLead: string, closing: string)

  /** The template of the f-string at app.py:145-153. */
  const Persona: PromptTemplate := PromptTemplate(PromptOpening, PromptAgeLead, PromptReferencesLead, PromptClosing)

  /**
   * `r` is the template filled in: the instructions, the name, the age lead, `str(age)`, the
   * references lead, the context and the closing indentation, each verbatim at its cumulative offset.
   */
  ghost predicate PromptLayout(t: PromptTemplate, profile: Profile, context: string, r: string) {
    var age := DecimalString(profile.age);
    && |r| == |t.opening| + |profile.name| + |t.ageLead| + |age| + |t.referencesLead| + |context| + |t.closing|
    && r[..|t.opening|] == t.opening
    && (var o := |t.opening|; r[o..o + |profile.name|] == profile.name)
    && (var o := |t.opening| + |profile.name|; r[o..o + |t.ageLead|] == t.ageLead)
    && (var o := |t.opening| + |profile.name| + |t.ageLead|; r[o..o + |age|] == age)
    && (var o := |t.opening| + |profile.name| + |t.ageLead| + |age|; r[o..o + |t.referencesLead|] == t.referencesLead)
    && (var o := |r| - |t.closing|; r[o - |context|..o] == context && r[o..] == t.closing)
  }

  /**
   * The prompt `t` spells for a profile and a knowledge context; the application sends it with
   * `t == Persona`, so its instruction block opens the prompt and `str(age)` follows the age lead.
   */
  function SystemPrompt(t: PromptTemplate, profile: Profile, context: string): (r: string)
    ensures PromptLayout(t, profile, context, r)
  {
    Interpolate(t.opening, profile.name, t.ageLead, DecimalString(profile.age), t.referencesLead, context, t.closing)
  }

  /** Seven pieces laid end to end, each found verbatim at its cumulative offset. */
  function Interpolate(p0: string, p1: string, p2: string, p3: string, p4: string, p5: string, p6: string)
    : (r: string)
    ensures |r| == |p0| + |p1| + |p2| + |p3| + |p4| + |p5| + |p6|
    ensures r[..|p0|] == p0
    ensures var o := |p0|; r[o..o + |p1|] == p1
    ensures var o := |p0| + |p1|; r[o..o + |p2|] == p2
    ensures var o := |p0| + |p1| + |p2|; r[o..o + |p3|] == p3
    ensures var o := |p0| + |p1| + |p2| + |p3|; r[o..o + |p4|] == p4
    ensures var o := |r| - |p6|; r[o - |p5|..o] == p5 && r[o..] == p6
  {
    var a1 := p0 + p1;
    var a2 := a1 + p2;
    var a3 := a2 + p3;
    var a4 := a3 + p4;
    var a5 := a4 + p5;
    var r := a5 + p6;
    assert a5 <= r && a4 <= a5 && a3 <= a4 && a2 <= a3 && a1 <= a2;
    SliceWithin([], p0, r);
    SliceWithin(p0, p1, r);
    SliceWithin(a1, p2, r);
    SliceWithin(a2, p3, r);
    SliceWithin(a3, p4, r);
    SliceWithin(a4, p5, r);
    assert r[|a5|..] == p6;
    r
  }

  /** The prompt does not depend on the gender or the education level: only name and age are interpolated. */
  lemma PromptIgnoresGenderAndEducation(t: PromptTemplate, p1: Profile, p2: Profile, context: string)
    requires p1.name == p2.name && p1.age == p2.age
    ensures SystemPrompt(t, p1, context) == SystemPrompt(t, p2, context)
  {
  }

  /** The outgoing list of app.py:155-156: the system message, then the last five stored messages. */
  function Request(systemPrompt: string, history: seq<Message>): (r: seq<Message>)
    ensures |r| == 1 + Min(HistoryWindow, |history|)
    ensures r[0] == Message(System, systemPrompt)
    ensures r[1..] == history[|history| - Min(HistoryWindow, |history|)..]
  {
    [Message(System, systemPrompt)] + SliceSuffix(history, HistoryWindow)
  }

  /** The window slides: once five messages follow them, older messages never reach the request. */
  lemma OlderMessagesDropped(systemPrompt: string, older: seq<Message>, recent: seq<Message>)
    requires |recent| >= HistoryWindow
    ensures Request(systemPrompt, older + recent) == Request(systemPrompt, recent)
  {
  }

  // ---------------------------------------------------------------------------------------------
  // The turn

  /** Generation fires only when the last stored message is the user's (app.py:137). */
  predicate AwaitsReply(messages: seq<Message>) {
    |messages| > 0 && messages[|messages| - 1].role == User
  }

  /**
   * The knowledge context for the user's last message, or `None` when `get_knowledge_context`
   * raises (app.py:138, 141).
   */
  function TurnContext(messages: seq<Message>, b: Backend): Option<string>
    requires AwaitsReply(messages)
  {
    Knowledge.KnowledgeContext(b.dir, b.ragAvailable, messages[|messages| - 1].content, b.search)
  }

  /** The request sent with a knowledge context: the system prompt, then the windowed history. */
  function TurnRequest(profile: Profile, messages: seq<Message>, context: string): seq<Message> {
    Request(SystemPrompt(Persona, profile, context), messages)
  }

  /** One generation step over the stored messages (app.py:137-168). */
  function NextTurn(profile: Profile, messages: seq<Message>, b: Backend): (t: Turn)
    ensures t.outcome.Idle? <==> !AwaitsReply(messages)
    ensures AwaitsReply(messages) && TurnContext(messages, b).None? ==> t.outcome == Failed
    ensures AwaitsReply(messages) && TurnContext(messages, b).Some? ==>
              var c := b.complete(TurnRequest(profile, messages, TurnContext(messages, b).value));
              t.outcome == if c.Completed? then Replied(c.content) else Failed
    ensures t.outcome.Replied? ==> t.messages == messages + [Message(Assistant, t.outcome.reply)]
    ensures !t.outcome.Replied? ==> t.messages == messages
  {
    if !AwaitsReply(messages) then Turn(Idle, messages)
    else match TurnContext(messages, b)
      case None => Turn(Failed, messages)
      case Some(context) =>
        match b.complete(TurnRequest(profile, messages, context))
        case Completed(reply) => Turn(Replied(reply), messages + [Message(Assistant, reply)])
        case CompletionFailed => Turn(Failed, messages)
  }

  /**
   * A reply is the completion of the request built for the user's last message: the system prompt
   * with that message's knowledge context, then at most five stored messages ending with the question.
   */
  lemma ReplyAnswersLastQuestion(profile: Profile, messages: seq<Message>, b: Backend)
    requires NextTurn(profile, messages, b).outcome.Replied?
    ensures AwaitsReply(messages) && !b.dir.Unlistable?
    ensures var query := messages[|messages| - 1].content;
            var context := Knowledge.ContextFor(Knowledge.DirectoryText(b.dir), b.ragAvailable, query, b.search);
            var req := TurnRequest(profile, messages, context);
            && b.complete(req) == Completed(NextTurn(profile, messages, b).outcome.reply)
            && |req| == 1 + Min(HistoryWindow, |messages|)
            && req[0] == Message(System, SystemPrompt(Persona, profile, context))
            && req[|req| - 1] == messages[|messages| - 1]
  {
  }

  /** A `docs` path that cannot be listed fails every pending turn, and the list stays as it was. */
  lemma UnlistableDirectoryFailsTurn(profile: Profile, messages: seq<Message>, b: Backend)
    requires AwaitsReply(messages) && b.dir.Unlistable?
    ensures NextTurn(profile, messages, b) == Turn(Failed, messages)
  {
  }

  /**
   * A reply is reachable: with no `docs` directory and a completion client that answers, a pending
   * question is replied to with the client's answer, which is appended after it.
   */
  lemma ReplyIsReachable(profile: Profile, question: string, answer: string)
    ensures var b := Backend(Knowledge.Missing, false, (_, _) => Knowledge.SearchFailed, _ => Completed(answer));
            var messages := [Message(User, question)];
            NextTurn(profile, messages, b) == Turn(Replied(answer), messages + [Message(Assistant, answer)])
  {
    var b := Backend(Knowledge.Missing, false, (_, _) => Knowledge.SearchFailed, _ => Completed(answer));
    var messages := [Message(User, question)];
    assert AwaitsReply(messages);
    assert TurnContext(messages, b).Some?;
  }

  /** A turn that replied leaves nothing to answer: the next step is idle until the user writes again. */
  lemma ReplySettlesTurn(profile: Profile, messages: seq<Message>, b: Backend, b2: Backend)
    requires NextTurn(profile, messages, b).outcome.Replied?
    ensures NextTurn(profile, NextTurn(profile, messages, b).messages, b2).outcome.Idle?
  {
  }

  /** A failed turn leaves the user's message waiting, so the next step tries it again. */
  lemma FailureKeepsQuestionPending(profile: Profile, messages: seq<Message>, b: Backend, b2: Backend)
    requires NextTurn(profile, messages, b).outcome.Failed?
    ensures NextTurn(profile, messages, b2).outcome != Idle
  {
  }

  /** Only the last five messages influence a turn: earlier history changes neither request nor reply. */
  lemma OlderMessagesDoNotInfluenceTurn(profile: Profile, older: seq<Message>, recent: seq<Message>, b: Backend)
    requires |recent| >= HistoryWindow && AwaitsReply(recent)
    ensures AwaitsReply(older + recent)
    ensures TurnContext(older + recent, b) == TurnContext(recent, b)
    ensures forall context :: TurnRequest(profile, older + recent, context) == TurnRequest(profile, recent, context)
    ensures NextTurn(profile, older + recent, b).outcome == NextTurn(profile, recent, b).outcome
  {
    forall context ensures TurnRequest(profile, older + recent, context) == TurnRequest(profile, recent, context) {
      OlderMessagesDropped(SystemPrompt(Persona, profile, context), older, recent);
    }
  }

  /** The session state of app.py:68-69 and 126-127, changed in place by the script's steps. */
  class Session {
    var profile: Option<Profile>
    var messages: seq<Message>

    constructor ()
      ensures profile == None && messages == []
    {
      profile := None;
      messages := [];
    }

    /** The admission form (app.py:79-86): stores the profile when the guard holds. */
    method Admit(submitted: bool, name: string, age: nat, education: string, gender: string)
      modifies this
      ensures profile == Admission(old(profile), submitted, name, age, education, gender)
      ensures messages == old(messages)
    {
      if submitted && name != "" && education != "" {
        profile := Some(Profile(name, age, education, gender));
      }
    }

    /** The chat input (app.py:133-134): a non-empty input is appended as a user message. */
    method SubmitInput(input: Option<string>)
      modifies this
      ensures profile == old(profile)
      ensures input.Some? && input.value != "" ==> messages == old(messages) + [Message(User, input.value)]
      ensures input.Some? && input.value != "" ==> AwaitsReply(messages)
      ensures !(input.Some? && input.value != "") ==> messages == old(messages)
    {
      if input.Some? && input.value != "" {
        messages := messages + [Message(User, input.value)];
      }
    }

    /**
     * The generation step (app.py:137-168). It is reached only with a stored profile, since the
     * script stops at app.py:89 otherwise. The stored list is only ever extended, by one reply.
     */
    method Generate(b: Backend) returns (outcome: TurnOutcome)
      requires profile.Some?
      modifies this
      ensures profile == old(profile)
      ensures Turn(outcome, messages) == NextTurn(old(profile).value, old(messages), b)
      ensures old(messages) <= messages && |messages| <= |old(messages)| + 1
    {
      if !(|messages| > 0 && messages[|messages| - 1].role == User) {
        return Idle;
      }
      var userInput := messages[|messages| - 1].content;
      var context := Knowledge.GetKnowledgeContext(b.dir, b.ragAvailable, userInput, b.search);
      assert context == TurnContext(messages, b);
      if context.None? {
        return Failed;
      }
      var apiMessages := TurnRequest(profile.value, messages, context.value);
      var completion := b.complete(apiMessages);
      if completion.Completed? {
        messages := messages + [Message(Assistant, completion.content)];
        outcome := Replied(completion.content);
      } else {
        outcome := Failed;
      }
    }
  }
}
