/**
 The guide page's chat bookkeeping: which text a send uses, how the message
 list grows around one call of the AI service, the history handed to the
 service, the query chosen from the page's URL, and the Enter key.

 Message ids and timestamps come from the clock and are not modelled. The
 service instance, and with it its country cache, lives as long as the page
 module, so the cache is part of the page state.
 */
module Guide {
  import opened Text
  import AIService
  import Language

  datatype Sender = UserSender | AssistantSender

  datatype Message = Message(sender: Sender, content: string, isLoading: bool)

  const WelcomeText: string :=
    "# Welcome to MoveSmart AI\n\n  Your AI-Powered Immigration Companion.\n  Here’s what I can help you with:\n\n  -  **# Visa & Immigration** \n  -  **# Travel Services** \n  -  **# Navigation & Location**\n  -  **# Quick Actions** \n\n  What would you like to explore first?"

  /** The page's state: the message list, the input box and the service's cache. */
  datatype GuideState = GuideState(messages: seq<Message>, input: string, cache: AIService.Cache)

  /** The page as it opens: the welcome message alone, an empty input, an empty cache. */
  const InitialState: GuideState := GuideState([Message(AssistantSender, WelcomeText, false)], "", map[])

  /**
   `messageText || inputMessage.trim()`, then the emptiness guard: an explicit
   non-empty text is sent as it is; otherwise the trimmed input, unless blank.
   */
  function SendText(explicit: Option<string>, input: string): (r: Option<string>)
    ensures Truthy(explicit) ==> r == explicit
    ensures !Truthy(explicit) && Trim(input) != "" ==> r == Some(Trim(input))
    ensures r.Some? ==> r.value != ""
  {
    if Truthy(explicit) then explicit
    else if Trim(input) != "" then Some(Trim(input))
    else None
  }

  /** Nothing is sent exactly when there is no explicit text and the input is white space only. */
  lemma NothingSentIffBlank(explicit: Option<string>, input: string)
    ensures SendText(explicit, input).None? <==>
              !Truthy(explicit) && forall k :: 0 <= k < |input| ==> IsJsSpace(input[k])
  {
    TrimEmptyIffBlank(input);
  }

  function RoleOf(m: Message): string {
    if m.sender == UserSender then "user" else "assistant"
  }

  /** `messages.slice(1).map(...)`: every message but the first, user or assistant by sender. */
  function HistoryOf(messages: seq<Message>): (r: seq<AIService.Turn>)
    ensures |messages| > 0 ==> |r| == |messages| - 1
    ensures |messages| == 0 ==> r == []
    ensures forall i :: 0 <= i < |r| ==> r[i] == AIService.Turn(RoleOf(messages[i + 1]), messages[i + 1].content)
  {
    if |messages| == 0 then [] else
    seq(|messages| - 1, i requires 0 <= i < |messages| - 1 => AIService.Turn(RoleOf(messages[i + 1]), messages[i + 1].content))
  }

  /** The service keeps every history entry the page sends, in order, with its role. */
  lemma HistoryFullyForwarded(messages: seq<Message>)
    requires |messages| > 0
    ensures var sent := AIService.MapHistory(HistoryOf(messages));
            && |sent| == |messages| - 1
            && forall i :: 0 <= i < |sent| ==>
                 sent[i].text == messages[i + 1].content
                 && (sent[i].role == AIService.UserRole <==> messages[i + 1].sender == UserSender)
  {
    var h := HistoryOf(messages);
    assert forall t :: t in h ==> AIService.IsChatTurn(t);
  }

  /** How the service call ended for the page: a reply, or a rejected promise. */
  datatype ServiceResult = Answered(text: string) | Threw

  /** Replaces the last message (the placeholder) by the reply, or by the localized error text. */
  function Settle(messages: seq<Message>, result: ServiceResult, languageCode: string): (r: seq<Message>)
    requires |messages| > 0
    ensures |r| == |messages|
    ensures r[..|r| - 1] == messages[..|messages| - 1]
    ensures r[|r| - 1].sender == AssistantSender && !r[|r| - 1].isLoading
    ensures result.Answered? ==> r[|r| - 1].content == result.text
    ensures result.Threw? ==> r[|r| - 1].content == Language.T(languageCode, "common.error")
  {
    var content := match result
      case Answered(text) => text
      case Threw => Language.T(languageCode, "common.error");
    messages[..|messages| - 1] + [Message(AssistantSender, content, false)]
  }

  /** The two messages a send appends: the user's text and the loading placeholder. */
  function Pending(messages: seq<Message>, text: string): seq<Message> {
    messages + [Message(UserSender, text, false), Message(AssistantSender, "", true)]
  }

  /**
   `handleSendMessage`, run to completion: append the user's message and a
   placeholder, clear the input, ask the service with the pre-send history,
   then replace the placeholder by the answer.
   */
  function SendMessage(state: GuideState, explicit: Option<string>, languageCode: string,
                       outcome: AIService.GatewayOutcome): (r: GuideState)
    ensures SendText(explicit, state.input).None? ==> r == state
    ensures SendText(explicit, state.input).Some? ==>
              var text := SendText(explicit, state.input).value;
              var advice := AIService.GetImmigrationAdvice(state.cache, text, languageCode,
                                                           HistoryOf(state.messages), outcome);
              && |r.messages| == |state.messages| + 2
              && r.messages[..|state.messages|] == state.messages
              && r.messages[|state.messages|] == Message(UserSender, text, false)
              && r.messages[|state.messages| + 1] == Message(AssistantSender, advice.reply, false)
              && r.input == ""
              && r.cache == advice.cache
  {
    match SendText(explicit, state.input)
    case None => state
    case Some(text) =>
      var advice := AIService.GetImmigrationAdvice(state.cache, text, languageCode,
                                                   HistoryOf(state.messages), outcome);
      var pending := Pending(state.messages, text);
      var settled := Settle(pending, Answered(advice.reply), languageCode);
      assert settled[..|state.messages|] == pending[..|state.messages|];
      GuideState(settled, "", advice.cache)
  }

  /** The service never rejects, so a send always ends in its reply and never in the error text. */
  lemma SendNeverShowsErrorText(state: GuideState, explicit: Option<string>, languageCode: string,
                                outcome: AIService.GatewayOutcome)
    requires SendText(explicit, state.input).Some?
    ensures var text := SendText(explicit, state.input).value;
            var r := SendMessage(state, explicit, languageCode, outcome);
            r.messages[|r.messages| - 1].content
              == AIService.GetImmigrationAdvice(state.cache, text, languageCode, HistoryOf(state.messages), outcome).reply
  {
  }

  /** Every message other than a placeholder stays settled: a send leaves no placeholder behind. */
  predicate NoPlaceholders(messages: seq<Message>) {
    forall i :: 0 <= i < |messages| ==> !messages[i].isLoading
  }

  lemma SendKeepsNoPlaceholders(state: GuideState, explicit: Option<string>, languageCode: string,
                                outcome: AIService.GatewayOutcome)
    requires NoPlaceholders(state.messages)
    ensures NoPlaceholders(SendMessage(state, explicit, languageCode, outcome).messages)
  {
    var r := SendMessage(state, explicit, languageCode, outcome);
    if SendText(explicit, state.input).Some? {
      SettledExtension(state.messages, r.messages);
    }
  }

  /** Two settled messages after a settled prefix leave no placeholder. */
  lemma SettledExtension(before: seq<Message>, after: seq<Message>)
    requires NoPlaceholders(before)
    requires |after| == |before| + 2 && after[..|before|] == before
    requires !after[|before|].isLoading && !after[|before| + 1].isLoading
    ensures NoPlaceholders(after)
  {
    forall i | 0 <= i < |after|
      ensures !after[i].isLoading
    {
      if i < |before| {
        assert after[i] == after[..|before|][i];
      }
    }
  }

  /**
   The query a page URL asks for: the topic "visa" or "housing" wins; else a
   non-empty country asks about immigrating there; else nothing is sent.
   */
  function UrlQuery(topic: Option<string>, country: Option<string>): (r: Option<string>)
    ensures r.Some? <==> topic == Some("visa") || topic == Some("housing") || Truthy(country)
    ensures topic == Some("visa") ==> r == Some("Help me with visa application process")
    ensures topic == Some("housing") ==> r == Some("Guide me through finding accommodation")
    ensures topic != Some("visa") && topic != Some("housing") && Truthy(country) ==>
              r == Some("Tell me about immigrating to " + country.value)
  {
    if Truthy(topic) || Truthy(country) then
      if topic == Some("visa") then Some("Help me with visa application process")
      else if topic == Some("housing") then Some("Guide me through finding accommodation")
      else if Truthy(country) then Some("Tell me about immigrating to " + country.value)
      else None
    else None
  }

  /**
   `handleKeyPress`: Enter without Shift on a non-blank input adds the trimmed
   input and the settled reply and empties the box; Enter on a blank input and
   every other key leave the page as it is.
   */
  function HandleKeyPress(state: GuideState, key: string, shift: bool, languageCode: string,
                          outcome: AIService.GatewayOutcome): (r: GuideState)
    ensures key == "Enter" && !shift && Trim(state.input) != "" ==>
              && |r.messages| == |state.messages| + 2
              && r.messages[..|state.messages|] == state.messages
              && r.messages[|state.messages|] == Message(UserSender, Trim(state.input), false)
              && !r.messages[|state.messages| + 1].isLoading
              && r.input == ""
    ensures key != "Enter" || shift || Trim(state.input) == "" ==> r == state
    ensures key == "Enter" && !shift ==> r == SendMessage(state, None, languageCode, outcome)
  {
    if key == "Enter" && !shift then SendMessage(state, None, languageCode, outcome) else state
  }
}
