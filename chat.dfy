/** The chat routes: keyword routing for session titles and quick help, the prompt
    built from recent history, and the message exchange that stores a user message
    and the assistant's reply. */
module Chat {
  import opened Wrappers
  import opened Json
  import opened Text
  import opened AiService

  /** A stored message. `kind` is `"user"` or `"ai"`; `contextUsed` is the one part of
      an assistant message's metadata the model keeps. */
  datatype ChatMessage = ChatMessage(kind: string, content: string, createdAt: int, contextUsed: Option<int>)

  datatype ChatSession = ChatSession(id: int, title: string, projectId: Option<int>, createdAt: int, updatedAt: int)

  /** Sessions and, per session, its messages in creation order. */
  class ChatStore {
    var sessions: map<int, ChatSession>
    var messages: map<int, seq<ChatMessage>>

    ghost predicate Valid()
      reads this
    {
      && sessions.Keys == messages.Keys
      && (forall id :: id in sessions ==> sessions[id].id == id)
    }

    constructor ()
      ensures sessions == map[] && messages == map[] && Valid()
    {
      sessions := map[];
      messages := map[];
    }
  }

  // ---------------------------------------------------------------------------
  // Keyword routing
  // ---------------------------------------------------------------------------

  /** Whether the lower-cased `text` contains `a` or `b`. */
  predicate Mentions(text: string, a: string, b: string)
  {
    Contains(Lower(text), a) || Contains(Lower(text), b)
  }

  /** The title made of the opening words: the first four, single-spaced, with `...`
      when the message has more. */
  function OpeningWords(message: string): (r: string)
  {
    var words := Words(message);
    var shown := if |words| <= 4 then words else words[..4];
    Join(shown, " ") + (if |words| > 4 then "..." else "")
  }

  /** `generate_session_title`: the first keyword group found in the lower-cased
      message names the session; with no keyword, its opening words do. */
  function SessionTitle(message: string): (r: string)
    ensures Mentions(message, "help", "how") ==> r == "Help & Guidance"
    ensures (!Mentions(message, "help", "how") && Mentions(message, "build", "create")) ==> r == "App Building"
    ensures (!Mentions(message, "help", "how") && !Mentions(message, "build", "create") &&
             Contains(Lower(message), "deploy")) ==> r == "Deployment Help"
    ensures (!Mentions(message, "help", "how") && !Mentions(message, "build", "create") &&
             !Contains(Lower(message), "deploy") && Mentions(message, "error", "problem")) ==> r == "Troubleshooting"
    ensures (!Mentions(message, "help", "how") && !Mentions(message, "build", "create") &&
             !Contains(Lower(message), "deploy") && !Mentions(message, "error", "problem") &&
             Contains(Lower(message), "api")) ==> r == "API Configuration"
    ensures (!Mentions(message, "help", "how") && !Mentions(message, "build", "create") &&
             !Contains(Lower(message), "deploy") && !Mentions(message, "error", "problem") &&
             !Contains(Lower(message), "api")) ==> r == OpeningWords(message)
  {
    if Mentions(message, "help", "how") then "Help & Guidance"
    else if Mentions(message, "build", "create") then "App Building"
    else if Contains(Lower(message), "deploy") then "Deployment Help"
    else if Mentions(message, "error", "problem") then "Troubleshooting"
    else if Contains(Lower(message), "api") then "API Configuration"
    else OpeningWords(message)
  }

  /** An opening-words title splits back into at most the first four words of the
      message (the last one carrying `...`), and ends in `...` exactly when the
      message has more than four. */
  lemma OpeningWordsShape(message: string)
    ensures var words := Words(message);
            var n := if |words| <= 4 then |words| else 4;
            exists body :: OpeningWords(message) == body + (if |words| > 4 then "..." else "") &&
                           Words(body) == words[..n]
    ensures |Words(message)| == 0 ==> OpeningWords(message) == ""
  {
    var words := Words(message);
    var shown := if |words| <= 4 then words else words[..4];
    var n := if |words| <= 4 then |words| else 4;
    assert shown == words[..n];
    WordsOfJoin(shown);
    var body := Join(shown, " ");
    assert OpeningWords(message) == body + (if |words| > 4 then "..." else "");
  }

  /** The canned answers of `get_quick_help_response`. */
  datatype HelpTopic = GettingStarted | ConfiguringKeys | Deployment | Progress | Troubleshooting | General

  /** `get_quick_help_response`: the first topic whose phrase the lower-cased question
      contains, in fixed order, else the general answer. */
  function QuickHelpTopic(question: string): (r: HelpTopic)
    ensures r == GettingStarted <==> Mentions(question, "how to start", "getting started")
    ensures r == ConfiguringKeys <==>
      !Mentions(question, "how to start", "getting started") && Contains(Lower(question), "api key")
    ensures r == Deployment <==>
      !Mentions(question, "how to start", "getting started") && !Contains(Lower(question), "api key") &&
      Contains(Lower(question), "deploy")
    ensures r == Progress <==>
      !Mentions(question, "how to start", "getting started") && !Contains(Lower(question), "api key") &&
      !Contains(Lower(question), "deploy") && Mentions(question, "progress", "status")
    ensures r == Troubleshooting <==>
      !Mentions(question, "how to start", "getting started") && !Contains(Lower(question), "api key") &&
      !Contains(Lower(question), "deploy") && !Mentions(question, "progress", "status") &&
      Mentions(question, "error", "problem")
  {
    if Mentions(question, "how to start", "getting started") then GettingStarted
    else if Contains(Lower(question), "api key") then ConfiguringKeys
    else if Contains(Lower(question), "deploy") then Deployment
    else if Mentions(question, "progress", "status") then Progress
    else if Mentions(question, "error", "problem") then Troubleshooting
    else General
  }

  /** The general answer is given exactly when no topic phrase occurs. */
  lemma GeneralIffNoPhrase(question: string)
    ensures QuickHelpTopic(question) == General <==>
      !Mentions(question, "how to start", "getting started") && !Contains(Lower(question), "api key") &&
      !Contains(Lower(question), "deploy") && !Mentions(question, "progress", "status") &&
      !Mentions(question, "error", "problem")
  {
  }

  // ---------------------------------------------------------------------------
  // History and prompt
  // ---------------------------------------------------------------------------

  /** The last `n` elements of `s` in their order (`s[-n:]`, or the `n` newest rows
      reversed back into creation order). */
  function Recent<T>(s: seq<T>, n: nat): (r: seq<T>)
    ensures |r| == if |s| <= n then |s| else n
    ensures r == s[|s| - |r|..]
  {
    if |s| <= n then s else s[|s| - n..]
  }

  /** Earlier elements do not reach a window that is already full. */
  lemma RecentIgnoresOlder<T>(older: seq<T>, s: seq<T>, n: nat)
    requires |s| >= n
    ensures Recent(older + s, n) == Recent(s, n)
  {
    assert (older + s)[|older + s| - n..] == s[|s| - n..];
  }

  /** One history line of the prompt. */
  function Line(m: ChatMessage): string
  {
    Title(m.kind) + ": " + m.content + "\n"
  }

  /** `header` followed by the history lines of `ms`, oldest first. */
  function Lines(header: string, ms: seq<ChatMessage>): string
  {
    if ms == [] then header else Lines(header, ms[..|ms| - 1]) + Line(ms[|ms| - 1])
  }

  /** The lines of a concatenation: the lines of the second part follow those of the
      first. */
  lemma {:induction false} LinesAppend(header: string, a: seq<ChatMessage>, b: seq<ChatMessage>)
    ensures Lines(header, a + b) == Lines(Lines(header, a), b)
    decreases |b|
  {
    if b == [] {
      assert a + b == a;
    } else {
      assert (a + b)[..|a + b| - 1] == a + b[..|b| - 1];
      LinesAppend(header, a, b[..|b| - 1]);
    }
  }

  /** The lines read front to back: one line per message, in order. */
  lemma LinesFront(header: string, m: ChatMessage, ms: seq<ChatMessage>)
    ensures Lines(header, [m] + ms) == Lines(header + Line(m), ms)
  {
    LinesAppend(header, [m], ms);
    assert [m][..0] == [];
  }

  const HistoryHeader := "\n\nConversation History:\n"

  /** The history section of the prompt: none for an empty history, else a header and
      the lines of the last five messages. */
  function HistorySection(history: seq<ChatMessage>): string
  {
    if history == [] then "" else Lines(HistoryHeader, Recent(history, 5))
  }

  /** The closing part of every prompt. */
  function UserTurn(userMessage: string): string
  {
    "\n\nUser: " + userMessage + "\n\nAssistant:"
  }

  /** The prompt for `userMessage` after `history`, opened by the fixed `system` text. */
  function Prompt(system: string, userMessage: string, history: seq<ChatMessage>): string
  {
    system + HistorySection(history) + "\n\nUser: " + userMessage + "\n\nAssistant:"
  }

  /** `build_ai_chat_prompt`: the loop appends one line per message of the last five. */
  method BuildAiChatPrompt(system: string, userMessage: string, history: seq<ChatMessage>) returns (prompt: string)
    ensures prompt == Prompt(system, userMessage, history)
  {
    var context := "";
    if history != [] {
      context := HistoryHeader;
      var recent := Recent(history, 5);
      for i := 0 to |recent|
        invariant context == Lines(HistoryHeader, recent[..i])
      {
        assert recent[..i + 1][..i] == recent[..i];
        context := context + Line(recent[i]);
      }
      assert recent[..|recent|] == recent;
    }
    prompt := system + context + "\n\nUser: " + userMessage + "\n\nAssistant:";
  }

  /** Every prompt opens with the system text and closes with the user's turn. */
  lemma PromptFrame(system: string, userMessage: string, history: seq<ChatMessage>)
    ensures system <= Prompt(system, userMessage, history)
    ensures var p := Prompt(system, userMessage, history);
            |p| >= |UserTurn(userMessage)| && p[|p| - |UserTurn(userMessage)|..] == UserTurn(userMessage)
  {
    var opening := system + HistorySection(history);
    var turn := "\n\nUser: " + userMessage;
    assert opening + "\n\nUser: " + userMessage == opening + turn;
    var p := opening + turn + "\n\nAssistant:";
    assert p == opening + UserTurn(userMessage);
    assert p[..|system|] == system by {
      assert p[..|opening|] == opening;
      assert opening[..|system|] == system;
    }
    assert p[|p| - |UserTurn(userMessage)|..] == UserTurn(userMessage);
  }

  /** Without history there is no history section. */
  lemma PromptWithoutHistory(system: string, userMessage: string)
    ensures Prompt(system, userMessage, []) == system + UserTurn(userMessage)
  {
  }

  /** Only the last five messages reach the prompt: older ones change nothing. */
  lemma PromptIgnoresOlder(system: string, userMessage: string, older: seq<ChatMessage>, history: seq<ChatMessage>)
    requires |history| >= 5
    ensures Prompt(system, userMessage, older + history) == Prompt(system, userMessage, history)
  {
    RecentIgnoresOlder(older, history, 5);
  }

  /** The reply when the provider hands back something that is not text. */
  const FallbackReply := "I understand your question. Let me help you with that. Could you provide more specific details about what you're trying to accomplish?"

  /** `get_ai_chat_response`: the provider's text when it is a string, the fixed
      reply otherwise. The provider call cannot raise, so the `except` branch never
      fires. */
  function AiChatResponse(cfg: Config, outcome: HttpOutcome): (r: string)
    ensures CallAiService(cfg, "chat_response", outcome).Str? ==> r == CallAiService(cfg, "chat_response", outcome).s
    ensures !CallAiService(cfg, "chat_response", outcome).Str? ==> r == FallbackReply
  {
    match CallAiService(cfg, "chat_response", outcome)
    case Str(s) => s
    case _ => FallbackReply
  }

  /** Only OpenAI can put anything but a mock text, or the fallback, in a reply. */
  lemma ChatReplySources(cfg: Config, outcome: HttpOutcome)
    ensures !IsSet(cfg.cerebrasKey) && !IsSet(cfg.openaiKey) ==> AiChatResponse(cfg, outcome) == MockResponse("chat_response")
    ensures IsSet(cfg.cerebrasKey) ==> AiChatResponse(cfg, outcome) == MockResponse("cerebras_response")
    ensures ProviderAnswered(cfg, outcome) && outcome.content.value.Str? ==>
      AiChatResponse(cfg, outcome) == outcome.content.value.s
    ensures ProviderAnswered(cfg, outcome) && !outcome.content.value.Str? ==> AiChatResponse(cfg, outcome) == FallbackReply
  {
  }

  /** What `generate_ai_response` hands back: the reply text and how many messages of
      history it was built from. */
  datatype AiReply = AiReply(content: string, contextUsed: nat)

  /** `generate_ai_response`: the ten newest messages of the session, oldest first,
      become the context; its prompt goes to the provider. Nothing in it can raise, so
      its apology branch never fires. */
  method GenerateAiResponse(cfg: Config, outcome: HttpOutcome, system: string, userMessage: string, messages: seq<ChatMessage>)
    returns (reply: AiReply, ghost prompt: string)
    ensures reply.contextUsed == |Recent(messages, 10)| <= 10
    ensures reply.contextUsed == |messages| || reply.contextUsed == 10
    ensures reply.content == AiChatResponse(cfg, outcome)
    ensures prompt == Prompt(system, userMessage, Recent(messages, 10))
  {
    var history := Recent(messages, 10);
    prompt := BuildAiChatPrompt(system, userMessage, history);
    reply := AiReply(AiChatResponse(cfg, outcome), |history|);
  }

  /** The prompt sees the last five messages of the session, whatever came before. */
  lemma PromptSeesLastFive(system: string, userMessage: string, messages: seq<ChatMessage>)
    ensures Prompt(system, userMessage, Recent(messages, 10)) == Prompt(system, userMessage, Recent(messages, 5))
  {
    var ten := Recent(messages, 10);
    if |messages| > 5 {
      assert Recent(ten, 5) == Recent(messages, 5);
    } else {
      assert ten == messages;
    }
  }

  /** History lines end with the line of their last message. */
  lemma LinesEndWithLast(header: string, ms: seq<ChatMessage>)
    requires ms != []
    ensures var lines := Lines(header, ms);
            var line := Line(ms[|ms| - 1]);
            |lines| >= |line| && lines[|lines| - |line|..] == line
  {
    var pre := Lines(header, ms[..|ms| - 1]);
    var line := Line(ms[|ms| - 1]);
    assert (pre + line)[|pre|..] == line;
  }

  /** The user message is committed before the history is read, so the prompt's
      history section always ends with the user's own message, which the prompt then
      repeats as the user's turn. */
  lemma CurrentMessageEndsHistory(before: seq<ChatMessage>, m: ChatMessage)
    ensures var section := HistorySection(Recent(before + [m], 10));
            |section| >= |Line(m)| && section[|section| - |Line(m)|..] == Line(m)
  {
    var h := Recent(before + [m], 10);
    assert h[|h| - 1] == m;
    var r := Recent(h, 5);
    assert r[|r| - 1] == m;
    LinesEndWithLast(HistoryHeader, r);
  }

  // ---------------------------------------------------------------------------
  // The exchange
  // ---------------------------------------------------------------------------

  /** A session and its messages after one exchange at `now`: the user message and
      the reply are appended, a session still called `New Chat` is renamed from the
      user message while these are its only two messages, and `updated_at` moves to
      `now`. */
  function Exchanged(session: ChatSession, messages: seq<ChatMessage>, content: string, reply: AiReply, now: int)
    : (r: (ChatSession, seq<ChatMessage>))
    ensures r.1 == messages + [ChatMessage("user", content, now, None), ChatMessage("ai", reply.content, now, Some(reply.contextUsed))]
    ensures r.0.title != session.title ==> messages == [] && session.title == "New Chat"
    ensures messages == [] && session.title == "New Chat" ==> r.0.title == SessionTitle(content)
    ensures r.0 == session.(title := r.0.title, updatedAt := now)
  {
    var after := messages + [ChatMessage("user", content, now, None), ChatMessage("ai", reply.content, now, Some(reply.contextUsed))];
    var title := if session.title == "New Chat" && |after| <= 2 then SessionTitle(content) else session.title;
    (session.(title := title, updatedAt := now), after)
  }

  /** `send_chat_message`: 400 without content, 404 for an unknown session, with
      nothing changed; otherwise the exchange is stored. The reply is built from the
      history that already holds the user message. */
  method SendChatMessage(store: ChatStore, sessionId: int, content: Field<string>, cfg: Config, outcome: HttpOutcome,
                         system: string, now: int)
    returns (code: int, reply: Option<AiReply>)
    requires store.Valid()
    modifies store
    ensures store.Valid()
    ensures code == 400 <==> content.Absent?
    ensures code == 404 <==> content.Present? && sessionId !in old(store.sessions)
    ensures code == 400 || code == 404 || code == 200
    ensures code != 200 ==>
      reply.None? && store.sessions == old(store.sessions) && store.messages == old(store.messages)
    ensures code == 200 ==>
      reply.Some? && sessionId in old(store.sessions) &&
      reply.value.content == AiChatResponse(cfg, outcome) &&
      reply.value.contextUsed == |Recent(old(store.messages)[sessionId] + [ChatMessage("user", content.value, now, None)], 10)| &&
      store.sessions == old(store.sessions)[sessionId :=
        Exchanged(old(store.sessions)[sessionId], old(store.messages)[sessionId], content.value, reply.value, now).0] &&
      store.messages == old(store.messages)[sessionId :=
        Exchanged(old(store.sessions)[sessionId], old(store.messages)[sessionId], content.value, reply.value, now).1]
  {
    if content.Absent? {
      return 400, None;
    }
    if sessionId !in store.sessions {
      return 404, None;
    }
    var text := content.value;
    var before := store.messages[sessionId];
    var history := before + [ChatMessage("user", text, now, None)];
    // the user message is committed before the reply is generated
    store.messages := store.messages[sessionId := history];
    var r, _ := GenerateAiResponse(cfg, outcome, system, text, history);
    var exchanged := Exchanged(store.sessions[sessionId], before, text, r, now);
    store.messages := store.messages[sessionId := exchanged.1];
    store.sessions := store.sessions[sessionId := exchanged.0];
    code, reply := 200, Some(r);
  }
}
