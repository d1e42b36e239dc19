/** The chat page (src/pages/Chat.tsx): an append-only transcript, a local
    keyword classifier that produces the assistant's replies, the escalation
    flag that shows the contact form, and the escalation records kept in
    browser storage. `crypto.randomUUID` results and `Math.random` draws are
    parameters; each `setTimeout` callback is a step method, and
    `HandleSendMessage` runs the steps one after the other. */
module Chat {
  import opened Wrappers
  import opened Text
  import EscalationForm

  datatype Role = User | Assistant

  /** One transcript entry (its timestamp is not modelled). */
  datatype ChatMessage = ChatMessage(id: string, role: Role, content: Content, needsEscalation: Option<bool>)

  /** What `generateResponse` returns; `reply` names its text. */
  datatype Response = Response(reply: Script, needsEscalation: bool)

  /** One element of the `escalations` list kept in browser storage. */
  datatype StoredEscalation = StoredEscalation(
    id: string, name: string, email: string, message: string,
    sessionId: string, status: string, chatHistory: seq<ChatMessage>)

  /** The assistant's fixed texts, by name. The transcript refers to them
      by name; `ScriptText` gives the exact words shown. */
  datatype Script =
    | Greeting | ProgramsReply | PaymentReply | CareerReply | ApplicationReply | DefaultReply
    | EscalationPrompt | SuccessReply

  function ScriptText(t: Script): string {
    match t
    case Greeting => "Hi there \U{1F44B}, I'm your virtual support assistant.\n\nI can help you with:\n\U{2022} Available programs\n\U{2022} Payment options  \n\U{2022} Career outcomes after graduation\n\nWhat would you like to know today?"
    case ProgramsReply => "We offer comprehensive Business Analysis programs including:\n\n\U{2022} Certified Business Analysis Professional (CBAP) prep\n\U{2022} Agile Business Analysis certification\n\U{2022} Data Analysis and Visualization\n\U{2022} Requirements Management masterclass\n\nEach program includes hands-on projects, mentorship, and career support. Would you like details about any specific program?"
    case PaymentReply => "Our payment options are flexible:\n\n\U{2022} Full payment: $2,999 (save 10%)\n\U{2022} 3-month plan: $1,150/month\n\U{2022} 6-month plan: $599/month\n\U{2022} Income Share Agreement available\n\nWe also offer scholarships and corporate discounts. Would you like me to connect you with our admissions team for personalized pricing?"
    case CareerReply => "Our graduates achieve excellent career outcomes:\n\n\U{2022} 92% job placement rate within 6 months\n\U{2022} Average salary increase: $25,000\n\U{2022} Top employers: Microsoft, Amazon, JPMorgan Chase\n\U{2022} Career support for 12 months post-graduation\n\nWould you like to speak with our career services team about your specific goals?"
    case ApplicationReply => "The application process is straightforward:\n\n1. Complete online application (15 minutes)\n2. Schedule a brief interview with our admissions team\n3. Submit any relevant work experience or education credentials\n4. Receive admission decision within 48 hours\n\nReady to start your application?"
    case DefaultReply => "I'd be happy to help with that! However, I want to make sure you get the most accurate and detailed information for your specific situation."
    case EscalationPrompt => "I'm not fully confident about the answer to your question. Please leave your contact details, and a support agent will reach out shortly."
    case SuccessReply => "Thank you! Your request has been sent. A support agent will reach out to you soon."
  }

  /** What a transcript entry shows: text the user sent, or one of the
      assistant's fixed texts. */
  datatype Content = Typed(text: string) | Scripted(script: Script)

  function ContentText(c: Content): string {
    match c
    case Typed(text) => text
    case Scripted(t) => ScriptText(t)
  }

  /** `generateResponse`: case-insensitive substring tests, first match
      wins. `draw` is the value `Math.random()` returned. */
  function GenerateResponse(userMessage: string, draw: real): (r: Response)
    ensures r.reply in {ProgramsReply, PaymentReply, CareerReply, ApplicationReply, DefaultReply}
    ensures r.reply == ProgramsReply || r.reply == ApplicationReply ==> !r.needsEscalation
    ensures r.reply == DefaultReply ==> r.needsEscalation
    ensures r.reply == PaymentReply ==> (r.needsEscalation <==> draw > 0.7)
    ensures r.reply == CareerReply ==> (r.needsEscalation <==> draw > 0.8)
  {
    var lower := Lower(userMessage);
    if Contains(lower, "program") || Contains(lower, "course") then
      Response(ProgramsReply, false)
    else if Contains(lower, "payment") || Contains(lower, "price") || Contains(lower, "cost") then
      Response(PaymentReply, draw > 0.7)
    else if Contains(lower, "career") || Contains(lower, "job") || Contains(lower, "outcome") then
      Response(CareerReply, draw > 0.8)
    else if Contains(lower, "application") || Contains(lower, "apply") || Contains(lower, "enroll") then
      Response(ApplicationReply, false)
    else
      Response(DefaultReply, true)
  }

  /** An independent, table-driven statement of the classifier: keyword
      groups in priority order, and the reply of each group; the last reply
      is the fallback. */
  const Keywords: seq<seq<string>> := [
    ["program", "course"],
    ["payment", "price", "cost"],
    ["career", "job", "outcome"],
    ["application", "apply", "enroll"]]

  const Replies: seq<Script> := [ProgramsReply, PaymentReply, CareerReply, ApplicationReply, DefaultReply]

  predicate MentionsAny(s: string, words: seq<string>) {
    exists w :: w in words && Contains(s, w)
  }

  /** The index of the first group with a keyword in `s`, or `|groups|`
      when none matches. */
  function FirstMatch(s: string, groups: seq<seq<string>>): (k: nat)
    ensures k <= |groups|
    ensures k < |groups| ==> MentionsAny(s, groups[k])
    ensures forall j :: 0 <= j < k ==> !MentionsAny(s, groups[j])
  {
    if groups == [] then 0
    else if MentionsAny(s, groups[0]) then 0
    else
      var k := FirstMatch(s, groups[1..]);
      assert forall j :: 1 <= j <= k ==> groups[j] == groups[1..][j - 1];
      1 + k
  }

  lemma MentionsAny2(s: string, a: string, b: string)
    ensures MentionsAny(s, [a, b]) <==> Contains(s, a) || Contains(s, b)
  {
    if Contains(s, a) { assert a in [a, b]; }
    if Contains(s, b) { assert b in [a, b]; }
  }

  lemma MentionsAny3(s: string, a: string, b: string, c: string)
    ensures MentionsAny(s, [a, b, c]) <==> Contains(s, a) || Contains(s, b) || Contains(s, c)
  {
    if Contains(s, a) { assert a in [a, b, c]; }
    if Contains(s, b) { assert b in [a, b, c]; }
    if Contains(s, c) { assert c in [a, b, c]; }
  }

  /** The response the table prescribes for group `k`: its reply, and the
      escalation rule of that group. */
  function TopicResponse(k: nat, draw: real): Response
    requires k < |Replies|
  {
    Response(Replies[k], if k == 1 then draw > 0.7 else if k == 2 then draw > 0.8 else k == 4)
  }

  /** The if-chain and the table agree: the response is the one of the
      first keyword group the lower-cased message mentions, in the order
      programs, payment, career, application, and the fallback otherwise.
      So programs and application replies never escalate, the fallback
      always does, and payment and career replies escalate exactly when the
      random draw exceeds 0.7 and 0.8 respectively. */
  lemma GenerateResponseIsFirstMatch(userMessage: string, draw: real)
    ensures GenerateResponse(userMessage, draw) == TopicResponse(FirstMatch(Lower(userMessage), Keywords), draw)
  {
    var s := Lower(userMessage);
    MentionsAny2(s, "program", "course");
    MentionsAny3(s, "payment", "price", "cost");
    MentionsAny3(s, "career", "job", "outcome");
    MentionsAny3(s, "application", "apply", "enroll");
    var g1 := Keywords[1..];
    var g2 := g1[1..];
    var g3 := g2[1..];
    var g4 := g3[1..];
    assert g1 == [["payment", "price", "cost"], ["career", "job", "outcome"], ["application", "apply", "enroll"]];
    assert g2 == [["career", "job", "outcome"], ["application", "apply", "enroll"]];
    assert g3 == [["application", "apply", "enroll"]];
    assert g4 == [];
    assert FirstMatch(s, g3) == if MentionsAny(s, g3[0]) then 0 else 1;
    assert FirstMatch(s, g2) == if MentionsAny(s, g2[0]) then 0 else 1 + FirstMatch(s, g3);
    assert FirstMatch(s, g1) == if MentionsAny(s, g1[0]) then 0 else 1 + FirstMatch(s, g2);
    assert FirstMatch(s, Keywords) == if MentionsAny(s, Keywords[0]) then 0 else 1 + FirstMatch(s, g1);
  }

  /** Which replies can escalate: programs and application never do, the
      fallback always does, payment and career do exactly when the random
      draw exceeds 0.7 and 0.8 respectively; the reply text never depends
      on the draw. */
  lemma EscalationByTopic(userMessage: string, draw: real, otherDraw: real)
    ensures var k := FirstMatch(Lower(userMessage), Keywords);
            var r := GenerateResponse(userMessage, draw);
            && ((k == 0 || k == 3) ==> !r.needsEscalation)
            && (k == 1 ==> (r.needsEscalation <==> draw > 0.7))
            && (k == 2 ==> (r.needsEscalation <==> draw > 0.8))
            && (k == 4 ==> r.needsEscalation)
            && r.reply == GenerateResponse(userMessage, otherDraw).reply
  {
    GenerateResponseIsFirstMatch(userMessage, draw);
    GenerateResponseIsFirstMatch(userMessage, otherDraw);
  }

  /** Matching ignores case: a message and its lower-case form get the same response. */
  lemma GenerateResponseIgnoresCase(userMessage: string, draw: real)
    ensures GenerateResponse(Lower(userMessage), draw) == GenerateResponse(userMessage, draw)
  {
    LowerIdempotent(userMessage);
  }

  /** First match wins: "program cost" mentions a price keyword too, but
      gets the programs reply, which never escalates. */
  lemma ProgramCostGetsProgramsReply(draw: real)
    ensures GenerateResponse("program cost", draw) == Response(ProgramsReply, false)
  {
    var s := "program cost";
    LowerOfLowerCase(s);
    assert OccursAt(Lower(s), "program", 0);
  }

  /** The text `handleSendMessage` sends: `message || inputValue.trim()`, and
      nothing when that is empty. An explicit message is used untrimmed;
      the input is trimmed. */
  function MessageText(message: Option<string>, inputValue: string): (r: Option<string>)
    ensures r.None? <==> (message.None? || message.value == "") && AllWhitespace(inputValue)
    ensures r.Some? ==> r.value != ""
    ensures message.Some? && message.value != "" ==> r == message
    ensures (message.None? || message.value == "") && r.Some? ==> r.value == Trim(inputValue)
  {
    var text := if message.Some? && message.value != "" then message.value else Trim(inputValue);
    if text == "" then None else Some(text)
  }

  /** The `escalations` entry of browser storage; absent reads as `[]`.
      Serialisation is not modelled. */
  class EscalationStore {
    var escalations: seq<StoredEscalation>

    constructor (stored: seq<StoredEscalation>)
      ensures escalations == stored
    {
      escalations := stored;
    }
  }

  class ChatView {
    /** Drawn once with `crypto.randomUUID()` and never changed. */
    const sessionId: string
    const store: EscalationStore
    var messages: seq<ChatMessage>
    var inputValue: string
    var showEscalation: bool

    /** The state initialisers of the first render. */
    constructor (sessionId: string, store: EscalationStore)
      ensures this.sessionId == sessionId && this.store == store
      ensures messages == [] && inputValue == "" && !showEscalation
    {
      this.sessionId := sessionId;
      this.store := store;
      messages := [];
      inputValue := "";
      showEscalation := false;
    }

    /** The input box's `onChange`. */
    method SetInput(value: string)
      modifies this
      ensures inputValue == value
      ensures messages == old(messages) && showEscalation == old(showEscalation)
    {
      inputValue := value;
    }

    /** The mount effect: the transcript becomes exactly the greeting; a
        non-empty `initialMessage` from the landing page then goes through
        the same send path (its reply steps follow as timers). */
    method Mount(greetingId: string, initialMessage: Option<string>, userId: string) returns (sent: Option<string>)
      requires inputValue == ""
      modifies this
      ensures var greeting := ChatMessage(greetingId, Assistant, Scripted(Greeting), None);
              if initialMessage.Some? && initialMessage.value != "" then
                sent == initialMessage &&
                messages == [greeting, ChatMessage(userId, User, Typed(initialMessage.value), None)]
              else
                sent == None && messages == [greeting]
      ensures inputValue == "" && showEscalation == old(showEscalation)
    {
      messages := [ChatMessage(greetingId, Assistant, Scripted(Greeting), None)];
      sent := None;
      if initialMessage.Some? && initialMessage.value != "" {
        sent := SendMessage(initialMessage, userId);
      }
    }

    /** The synchronous part of `handleSendMessage`: nothing at all happens
        when there is no text; otherwise exactly one user entry is appended
        and the input is cleared. */
    method SendMessage(message: Option<string>, userId: string) returns (sent: Option<string>)
      modifies this
      ensures sent == MessageText(message, old(inputValue))
      ensures sent.None? ==> messages == old(messages) && inputValue == old(inputValue)
      ensures sent.Some? ==>
        messages == old(messages) + [ChatMessage(userId, User, Typed(sent.value), None)] && inputValue == ""
      ensures showEscalation == old(showEscalation)
    {
      sent := MessageText(message, inputValue);
      if sent.None? {
        return;
      }
      messages := messages + [ChatMessage(userId, User, Typed(sent.value), None)];
      inputValue := "";
    }

    /** The first timer: one assistant entry with the generated reply. */
    method ReplyStep(text: string, draw: real, replyId: string) returns (escalate: bool)
      modifies this
      ensures var r := GenerateResponse(text, draw);
              escalate == r.needsEscalation &&
              messages == old(messages) + [ChatMessage(replyId, Assistant, Scripted(r.reply), Some(r.needsEscalation))]
      ensures inputValue == old(inputValue) && showEscalation == old(showEscalation)
    {
      var r := GenerateResponse(text, draw);
      messages := messages + [ChatMessage(replyId, Assistant, Scripted(r.reply), Some(r.needsEscalation))];
      escalate := r.needsEscalation;
    }

    /** The second timer, scheduled only for an escalating reply: one more
        assistant entry, and the contact form is shown. */
    method EscalationPromptStep(promptId: string)
      modifies this
      ensures messages == old(messages) + [ChatMessage(promptId, Assistant, Scripted(EscalationPrompt), None)]
      ensures showEscalation && inputValue == old(inputValue)
    {
      messages := messages + [ChatMessage(promptId, Assistant, Scripted(EscalationPrompt), None)];
      showEscalation := true;
    }

    /** `handleSendMessage` with both timers run in order: the user entry,
        one reply, and the prompt only when the reply escalates. */
    method HandleSendMessage(message: Option<string>, userId: string, draw: real, replyId: string, promptId: string)
      returns (sent: Option<string>)
      modifies this
      ensures sent == MessageText(message, old(inputValue))
      ensures sent.None? ==>
        messages == old(messages) && inputValue == old(inputValue) && showEscalation == old(showEscalation)
      ensures sent.Some? ==>
        var r := GenerateResponse(sent.value, draw);
        && messages == old(messages)
             + [ChatMessage(userId, User, Typed(sent.value), None),
                ChatMessage(replyId, Assistant, Scripted(r.reply), Some(r.needsEscalation))]
             + (if r.needsEscalation then [ChatMessage(promptId, Assistant, Scripted(EscalationPrompt), None)] else [])
        && inputValue == ""
        && showEscalation == (old(showEscalation) || r.needsEscalation)
    {
      sent := SendMessage(message, userId);
      if sent.None? {
        return;
      }
      var escalate := ReplyStep(sent.value, draw, replyId);
      if escalate {
        EscalationPromptStep(promptId);
      }
    }

    /** `handleEscalationSubmit`: one record is appended to storage, with
        status "Open", this view's session id and the transcript as it was
        before the confirmation; the form is hidden and exactly one
        confirmation entry is appended. The form, and so this callback, is
        only there while `showEscalation` holds. */
    method HandleEscalationSubmit(formData: EscalationForm.FormData, escalationId: string, successId: string)
      requires showEscalation
      modifies this, store
      ensures store.escalations == old(store.escalations) + [StoredEscalation(
        escalationId, formData.name, formData.email, formData.message, sessionId, "Open", old(messages))]
      ensures messages == old(messages) + [ChatMessage(successId, Assistant, Scripted(SuccessReply), None)]
      ensures !showEscalation && inputValue == old(inputValue)
    {
      var record := StoredEscalation(
        escalationId, formData.name, formData.email, formData.message, sessionId, "Open", messages);
      store.escalations := store.escalations + [record];
      showEscalation := false;
      messages := messages + [ChatMessage(successId, Assistant, Scripted(SuccessReply), None)];
    }

    /** The form's `onCancel`: hides the form and appends nothing. */
    method CancelEscalation()
      requires showEscalation
      modifies this
      ensures !showEscalation
      ensures messages == old(messages) && inputValue == old(inputValue)
    {
      showEscalation := false;
    }

    /** The form wired to this view: a record reaches storage only when the
        form let the submit through, so it always has a name and an email. */
    method HandleFormOutcome(outcome: EscalationForm.Outcome, escalationId: string, successId: string)
      requires !outcome.NoCall? ==> showEscalation
      requires outcome.Submitted? ==> outcome.data.name != "" && outcome.data.email != ""
      modifies this, store
      ensures outcome.NoCall? ==> messages == old(messages) && showEscalation == old(showEscalation) &&
                                  store.escalations == old(store.escalations)
      ensures outcome.Cancelled? ==> messages == old(messages) && !showEscalation &&
                                     store.escalations == old(store.escalations)
      ensures outcome.Submitted? ==>
        && store.escalations == old(store.escalations) + [StoredEscalation(escalationId, outcome.data.name,
             outcome.data.email, outcome.data.message, sessionId, "Open", old(messages))]
        && messages == old(messages) + [ChatMessage(successId, Assistant, Scripted(SuccessReply), None)]
        && !showEscalation
      ensures inputValue == old(inputValue)
    {
      match outcome
      case NoCall =>
      case Cancelled => CancelEscalation();
      case Submitted(data) => HandleEscalationSubmit(data, escalationId, successId);
    }
  }

  /** A page visit from end to end: greeting, a question that falls through
      to the fallback reply, the prompt, and a submitted escalation that
      records everything shown before the confirmation. */
  method EscalationVisit(sessionId: string, question: string, name: string, email: string)
    requires question != "" && name != "" && email != ""
    requires FirstMatch(Lower(question), Keywords) == 4
  {
    var store := new EscalationStore([]);
    var view := new ChatView(sessionId, store);
    var sent := view.Mount("g", Some(question), "u");
    assert sent == Some(question);
    GenerateResponseIsFirstMatch(question, 0.0);
    var escalate := view.ReplyStep(question, 0.0, "r");
    assert escalate;
    view.EscalationPromptStep("p");
    assert |view.messages| == 4 && view.showEscalation;
    var shown := view.messages;
    view.HandleEscalationSubmit(EscalationForm.FormData(name, email, ""), "e", "s");
    assert store.escalations == [StoredEscalation("e", name, email, "", sessionId, "Open", shown)];
    assert |view.messages| == 5 && !view.showEscalation;
  }

  /** The form wired to the view: once a question has brought up the
      prompt, an untouched form lets nothing through, and after the name and
      email are typed its submit reaches storage with exactly the typed
      record and the transcript up to the prompt. */
  method SubmitThroughForm(sessionId: string, question: string, name: string, email: string)
    requires question != "" && name != "" && email != ""
    requires FirstMatch(Lower(question), Keywords) == 4
  {
    var store := new EscalationStore([]);
    var view := new ChatView(sessionId, store);
    var _ := view.Mount("g", None, "u");
    GenerateResponseIsFirstMatch(question, 0.0);
    var sent := view.HandleSendMessage(Some(question), "u", 0.0, "r", "p");
    assert sent == Some(question);
    assert view.showEscalation && |view.messages| == 4;
    var shown := view.messages;
    var form := new EscalationForm.Form();
    var outcome := form.HandleSubmit();
    view.HandleFormOutcome(outcome, "e0", "s0");
    assert store.escalations == [] && view.messages == shown && view.showEscalation;
    form.HandleChange(EscalationForm.Name, name);
    form.HandleChange(EscalationForm.Email, email);
    outcome := form.HandleSubmit();
    view.HandleFormOutcome(outcome, "e1", "s1");
    assert store.escalations == [StoredEscalation("e1", name, email, "", sessionId, "Open", shown)];
    assert view.messages == shown + [ChatMessage("s1", Assistant, Scripted(SuccessReply), None)];
    assert !view.showEscalation;
  }
}
