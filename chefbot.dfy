/** One conversational turn of Chefbot: record the user's message, send the
    system prompt and the most recent messages to the completion provider,
    and record its reply when there is one. The provider (the HTTP client of
    chefbot.py) is a function argument of each turn. */
module Bot {
  import opened Wrappers
  import opened Memory

  /** The persona every prompt starts with. */
  const SystemPrompt: string :=
    "You are a professional chef with decades of experience in culinary arts. \n" +
    "You are helping someone keep track of recipes and providing cooking assistance. Your expertise includes:\n" +
    "\n" +
    "- International cuisines and cooking techniques\n" +
    "- Recipe development and adaptation\n" +
    "- Ingredient substitutions and dietary accommodations\n" +
    "- Cooking tips, tricks, and troubleshooting\n" +
    "- Food safety and storage recommendations\n" +
    "- Kitchen equipment and tool usage\n" +
    "- Meal planning and preparation strategies\n" +
    "\n" +
    "You are warm, encouraging, and patient. You provide clear, detailed instructions when needed.\n" +
    "You remember previous conversations and can reference recipes or techniques discussed earlier.\n" +
    "When users share recipes, you remember them and can recall them later.\n" +
    "You provide measurements in both metric and imperial units when relevant.\n" +
    "\n" +
    "Always be helpful, friendly, and professional in your responses."

  /** What a turn returns when the provider gives no usable reply. */
  const Apology: string := "I apologize, but I'm having trouble connecting right now. Please try again."

  /** How many stored messages a prompt carries unless configured. */
  const DefaultContextWindow: nat := 10

  /** Python truthiness of the provider's answer: `None` and the empty
      string both count as no reply. */
  predicate Truthy(response: Option<string>) {
    response.Some? && response.value != ""
  }

  /** The prompt a turn sends: the system message, then the stored window. */
  function Prompt(system: string, rows: seq<Record>, window: nat): (p: seq<Message>)
    ensures |p| == 1 + Min(window, |rows|)
    ensures p[0] == Message(System, system)
    ensures forall i :: 1 <= i < |p| ==> p[i] == rows[|rows| - |p| + i].ToMessage()
    ensures NoSystemRecords(rows) ==> forall i :: 1 <= i < |p| ==> p[i].role != System
    ensures window >= 1 && rows != [] ==> p[|p| - 1] == rows[|rows| - 1].ToMessage()
  {
    [Message(System, system)] + RecentWindow(rows, window)
  }

  /** The prompt built right after the user's message was stored: it ends
      with that message and holds `min(window, n + 1)` stored messages. */
  lemma PromptAfterUserMessage(system: string, rows: seq<Record>, id: nat, userMessage: string, window: nat)
    requires window >= 1
    ensures var p := Prompt(system, rows + [Record(id, User, userMessage)], window);
            && |p| == 1 + Min(window, |rows| + 1)
            && p == [Message(System, system)] + RecentWindow(rows, window - 1) + [Message(User, userMessage)]
  {
    RecentAfterAppend(rows, Record(id, User, userMessage), window);
  }

  /** A completed turn: what the user said and what the provider returned. */
  datatype Turn = Turn(userMessage: string, response: Option<string>)

  /** The messages one turn adds: the user's, then the assistant's if any. */
  function TurnMessages(t: Turn): seq<Message> {
    [Message(User, t.userMessage)] + (if Truthy(t.response) then [Message(Assistant, t.response.value)] else [])
  }

  /** The ids one turn consumes. */
  function IdsUsed(t: Turn): nat {
    if Truthy(t.response) then 2 else 1
  }

  /** The rows one turn inserts, numbered from `nextId`: read back, they are
      the turn's messages, and they use up one id each. */
  function TurnRecords(nextId: nat, t: Turn): (added: seq<Record>)
    ensures |added| == IdsUsed(t)
    ensures Project(added) == TurnMessages(t)
    ensures forall i :: 0 <= i < |added| ==> added[i].id == nextId + i && added[i].role != System
  {
    [Record(nextId, User, t.userMessage)]
      + (if Truthy(t.response) then [Record(nextId + 1, Assistant, t.response.value)] else [])
  }

  /** The table after a turn whose provider answered `response`. */
  function TurnLog(rows: seq<Record>, nextId: nat, userMessage: string, response: Option<string>): (log: seq<Record>)
    ensures |log| == |rows| + (if Truthy(response) then 2 else 1)
    ensures log[..|rows|] == rows
    ensures log[|rows|] == Record(nextId, User, userMessage)
    ensures Truthy(response) ==> log[|rows| + 1] == Record(nextId + 1, Assistant, response.value)
  {
    rows + TurnRecords(nextId, Turn(userMessage, response))
  }

  /** A turn never stores a system message, and the rows it adds carry ids
      above every stored one, in increasing order. */
  lemma TurnLogKeepsOrder(rows: seq<Record>, nextId: nat, userMessage: string, response: Option<string>)
    requires IdsIncreasing(rows)
    requires forall i :: 0 <= i < |rows| ==> rows[i].id < nextId
    ensures var log := TurnLog(rows, nextId, userMessage, response);
            && IdsIncreasing(log)
            && (NoSystemRecords(rows) ==> NoSystemRecords(log))
  {
  }

  /** The messages a run of turns adds, turn after turn. */
  function Transcript(turns: seq<Turn>): seq<Message> {
    if turns == [] then [] else TurnMessages(turns[0]) + Transcript(turns[1..])
  }

  /** The number of turns the provider answered. */
  function Successes(turns: seq<Turn>): nat {
    if turns == [] then 0 else (if Truthy(turns[0].response) then 1 else 0) + Successes(turns[1..])
  }

  /** The table after a run of turns, one after the other. */
  function Conversation(rows: seq<Record>, nextId: nat, turns: seq<Turn>): seq<Record>
    decreases |turns|
  {
    if turns == [] then rows
    else Conversation(rows + TurnRecords(nextId, turns[0]), nextId + IdsUsed(turns[0]), turns[1..])
  }

  /** A run of one turn is what one `Chat` call does to the table, and the
      next turn numbers its rows from the id after them. */
  lemma ConversationStep(rows: seq<Record>, nextId: nat, t: Turn, rest: seq<Turn>)
    ensures Conversation(rows, nextId, [t]) == TurnLog(rows, nextId, t.userMessage, t.response)
    ensures Conversation(rows, nextId, [t] + rest)
         == Conversation(TurnLog(rows, nextId, t.userMessage, t.response), nextId + IdsUsed(t), rest)
  {
    assert ([t] + rest)[0] == t && ([t] + rest)[1..] == rest;
  }

  /** A run of turns adds exactly its transcript to the end of the table. */
  lemma {:induction false} ConversationTranscript(rows: seq<Record>, nextId: nat, turns: seq<Turn>)
    ensures Project(Conversation(rows, nextId, turns)) == Project(rows) + Transcript(turns)
    decreases |turns|
  {
    if turns != [] {
      var added := TurnRecords(nextId, turns[0]);
      assert Conversation(rows, nextId, turns) == Conversation(rows + added, nextId + IdsUsed(turns[0]), turns[1..]);
      ConversationTranscript(rows + added, nextId + IdsUsed(turns[0]), turns[1..]);
      ProjectAppend(rows, added);
      assert Transcript(turns) == TurnMessages(turns[0]) + Transcript(turns[1..]);
    }
  }

  /** Every turn adds one or two messages: one per turn, plus one for each
      turn the provider answered. */
  lemma {:induction false} TranscriptLength(turns: seq<Turn>)
    ensures |Transcript(turns)| == |turns| + Successes(turns)
    ensures Successes(turns) <= |turns|
  {
    if turns != [] {
      TranscriptLength(turns[1..]);
    }
  }

  /** The chatbot: a conversation memory it does not own, handed in by the
      caller, the number of stored messages a prompt carries, and the
      persona text, which is `SystemPrompt` for every bot. */
  class Chefbot {
    const memory: ConversationMemory
    const contextWindow: nat
    const systemPrompt: string

    /** The persona text is the class-wide `SystemPrompt`. The constructor
        establishes it and, `systemPrompt` being a constant, it keeps. */
    ghost predicate Configured()
      reads this
    {
      systemPrompt == SystemPrompt
    }

    constructor (memory: ConversationMemory, contextWindow: nat)
      ensures this.memory == memory && this.contextWindow == contextWindow
      ensures Configured()
    {
      this.memory := memory;
      this.contextWindow := contextWindow;
      systemPrompt := SystemPrompt;
    }

    /** One turn. The user's message is stored first, so the prompt, read
        afterwards, ends with it; the reply is stored and returned only when
        the provider gave a non-empty one, otherwise nothing more is stored
        and the apology is returned. */
    method Chat(userMessage: string, provider: seq<Message> -> Option<string>) returns (reply: string)
      requires Configured() && memory.Valid()
      modifies memory
      ensures memory.Valid()
      ensures var prompt := Prompt(systemPrompt, old(memory.rows) + [Record(old(memory.nextId), User, userMessage)], contextWindow);
              var response := provider(prompt);
              && reply == (if Truthy(response) then response.value else Apology)
              && memory.rows == TurnLog(old(memory.rows), old(memory.nextId), userMessage, response)
              && memory.nextId == old(memory.nextId) + (if Truthy(response) then 2 else 1)
              && memory.issued == old(memory.issued) + {old(memory.nextId)}
                                  + (if Truthy(response) then {old(memory.nextId) + 1} else {})
    {
      memory.AddMessage(User, userMessage);
      var messages := [Message(System, systemPrompt)];
      var recent := memory.GetRecentMessages(contextWindow);
      messages := messages + recent;
      var response := provider(messages);
      if response.Some? && response.value != "" {
        memory.AddMessage(Assistant, response.value);
        reply := response.value;
      } else {
        reply := Apology;
      }
    }

    /** Empties the conversation memory. */
    method ClearMemory()
      requires memory.Valid()
      modifies memory
      ensures memory.Valid()
      ensures memory.rows == [] && memory.nextId == old(memory.nextId) && memory.issued == old(memory.issued)
    {
      memory.ClearHistory();
    }
  }

  /** The integration test: a provider that always answers, one turn on an
      empty memory, and both messages stored in order. */
  method AnsweredTurnScenario() returns (reply: string, all: seq<Message>)
    ensures reply == "I'd be happy to help you with that recipe!"
    ensures all == [Message(User, "How do I make bread?"),
                    Message(Assistant, "I'd be happy to help you with that recipe!")]
  {
    var memory := new ConversationMemory();
    var bot := new Chefbot(memory, DefaultContextWindow);
    reply := bot.Chat("How do I make bread?", (prompt: seq<Message>) => Some("I'd be happy to help you with that recipe!"));
    assert memory.rows == [Record(1, User, "How do I make bread?"),
                           Record(2, Assistant, "I'd be happy to help you with that recipe!")];
    all := memory.GetAllMessages();
  }

  /** A provider that fails, and one that answers with the empty string:
      both turns return the apology and store only the user's message. */
  method UnansweredTurnScenario() returns (failed: string, failedLog: seq<Message>, empty: string, emptyLog: seq<Message>)
    ensures failed == Apology && failedLog == [Message(User, "test")]
    ensures empty == Apology && emptyLog == [Message(User, "test")]
  {
    var memory := new ConversationMemory();
    var bot := new Chefbot(memory, DefaultContextWindow);
    failed := bot.Chat("test", (prompt: seq<Message>) => None);
    assert memory.rows == [Record(1, User, "test")];
    failedLog := memory.GetAllMessages();
    bot.ClearMemory();
    empty := bot.Chat("test", (prompt: seq<Message>) => Some(""));
    assert memory.rows == [Record(2, User, "test")];
    emptyLog := memory.GetAllMessages();
  }

  /** A window of two over five stored messages: the prompt for the sixth
      message is the system message, the fifth message and the sixth. */
  lemma WindowScenario(system: string)
    ensures var rows := [Record(1, User, "one"), Record(2, Assistant, "two"), Record(3, User, "three"),
                         Record(4, Assistant, "four"), Record(5, User, "five")];
            Prompt(system, rows + [Record(6, User, "six")], 2)
              == [Message(System, system), Message(User, "five"), Message(User, "six")]
  {
  }
}
