# Chefbot conversation memory and turn assembly, in Dafny

Chefbot is a command-line chef assistant. It answers with a remote language model and keeps every exchange in a SQLite table, so each new question is sent together with the most recent part of the conversation. This project models the two parts of `chefbot.py` that carry invariants:

- `ConversationMemory` (module `Memory`), the append-only message table. Ids come from an `INTEGER PRIMARY KEY AUTOINCREMENT` column. The model is a class whose rows are a `seq<Record>` field and whose `nextId` field is the AUTOINCREMENT counter. `ClearHistory` empties the rows and leaves the counter alone, as SQLite does, so an id is never handed out twice. A ghost set `issued` records every id handed out; it is used to state that ids are not reused.
- `Chefbot.chat` (module `Bot`), one conversational turn. It stores the user's message, builds the prompt from the system persona and the last `contextWindow` stored messages, and calls the completion provider once. It stores and returns the reply only when the reply is truthy, meaning present and not empty. Otherwise it returns the fixed apology. The provider is a function argument `seq<Message> -> Option<string>`, where `None` stands for a failed request or a missing or falsy content. Failures the client does not catch are listed under "Left out". The memory object is handed to the `Chefbot` constructor rather than opened at a fixed database path.

Three definitions carry no contract of their own:

- `Record.ToMessage` is the `{"role": ..., "content": ...}` view of one row (chefbot.py:86, chefbot.py:102);
- `Project` is the ascending read of the whole table (chefbot.py:101-102);
- `Truthy` is the `if response:` test on the provider's answer, meaning present and not empty (chefbot.py:220).

The members below that use them carry the contracts.

Each method is proved against a specification function:

- `GetRecentMessages` against `RecentWindow`;
- `GetAllMessages` against `Project`;
- `Chat` against `Prompt` and `TurnLog`.

Lemmas then state the properties of those functions:

- the ids are ordered;
- the window selects the rows with the largest ids, oldest first;
- a turn adds exactly one or two messages;
- a run of turns adds exactly its transcript.

The scenario members restate the repository's tests, plus a failed turn and a window example, as contracts on concrete calls.

Roles are a closed datatype `System | User | Assistant`, while the source stores a free-form string. The only strings it ever writes are `"user"` and `"assistant"`, and `"system"` appears only in prompts.

## Model

| member | source | states |
|---|---|---|
| `Memory.IdsOrdered` | chefbot.py:40 | ids that grow from each row to the next grow over the whole table, so position order and id order agree |
| `Memory.ProjectAppend` | chefbot.py:101-102 | reading two runs of rows one after the other gives the concatenation of their reads |
| `Memory.RecentWindow` | chefbot.py:81-87 | the recent read has exactly `min(limit, n)` messages, equal to the last `min(limit, n)` rows oldest-first; a limit of at least `n` gives the whole table |
| `Memory.RecentSelectsNewest` | chefbot.py:81-87 | the rows the window takes have larger ids than every row it leaves out, and it lists them in ascending id order |
| `Memory.RecentAfterAppend` | chefbot.py:81-87 | after one more insert, a window of `k >= 1` is the window of `k - 1` over the older rows followed by the new row |
| `Memory.ReverseInPlace` | chefbot.py:87 | the list holds its old elements back to front |
| `Memory.ConversationMemory.constructor` | chefbot.py:24-48 | a new table is empty and its AUTOINCREMENT counter starts at 1 |
| `Memory.ConversationMemory.AddMessage` | chefbot.py:50-67 | exactly one row is appended at the end with that role and content and an id larger than every id issued before; earlier rows are unchanged |
| `Memory.ConversationMemory.GetRecentMessages` | chefbot.py:69-90 | the descending fetch reversed in place returns the recent window of the table |
| `Memory.ConversationMemory.GetAllMessages` | chefbot.py:92-105 | returns every stored message in insertion order |
| `Memory.ConversationMemory.ClearHistory` | chefbot.py:107-115 | the table is empty afterwards, the counter and the issued ids are kept, and the store stays valid, so clearing again leaves it empty too |
| `Memory.MemoryScenario` | test_chefbot.py:26-46 | three inserts, a read of 2 yields assistant then user, the full read has 3, and one clear or two both leave it empty |
| `Bot.Prompt` | chefbot.py:210-215 | the prompt is the system message followed by the last `min(window, n)` stored messages; its length is `1 + min(window, n)`; no later entry has the system role when no stored row has it; with `window >= 1` it ends with the newest row |
| `Bot.PromptAfterUserMessage` | chefbot.py:207-215 | built after the user's message is stored, the prompt has `1 + min(window, n + 1)` entries and ends with that message |
| `Bot.TurnRecords` | chefbot.py:208-222 | a turn inserts one row, or two when the reply is truthy; read back they are the user's message then the reply, with consecutive ids from the next id and never the system role |
| `Bot.TurnLog` | chefbot.py:207-225 | a turn keeps the old rows, then adds the user row with the next id, then the assistant row with the id after it exactly when the reply is truthy |
| `Bot.TurnLogKeepsOrder` | chefbot.py:207-222 | a turn keeps the ids increasing and stores no system row |
| `Bot.ConversationStep` | chefbot.py:207-225 | a run of one turn changes the table exactly as one `Chat` call does (its `TurnLog`), and a longer run continues from that table with the next unused id |
| `Bot.ConversationTranscript` | chefbot.py:198-225 | a run of turns appends exactly its transcript to the table: each turn's user message, then its reply when the provider answered |
| `Bot.TranscriptLength` | chefbot.py:198-225 | a run of `t` turns adds `t` plus the number of answered turns, so between `t` and `2t` messages |
| `Bot.Chefbot.constructor` | chefbot.py:187-196 | the bot uses the memory it is given and the configured context window |
| `Bot.Chefbot.Chat` | chefbot.py:198-225 | for a bot whose persona is `SystemPrompt`, stores the user's message, sends the `Prompt` of the table including it, returns the truthy reply and stores it as the assistant's, or returns the apology and stores nothing more; the memory stays valid |
| `Bot.Chefbot.ClearMemory` | chefbot.py:227-230 | empties the memory and keeps its id counter |
| `Bot.AnsweredTurnScenario` | test_chefbot.py:80-98 | on an empty memory an answered turn returns the reply and leaves exactly (user, question) then (assistant, reply) |
| `Bot.UnansweredTurnScenario` | chefbot.py:220-225 | a failed request or an empty reply both return the apology and leave only the user's message |
| `Bot.WindowScenario` | chefbot.py:208-215 | with a window of 2 over five stored messages, the prompt for a sixth is the system message, the fifth message and the sixth |

## Left out

- The SQLite connection handling: opening, committing and closing per call, and `CREATE TABLE IF NOT EXISTS` (chefbot.py:33-48). These are storage I/O. The table is an in-memory sequence, and the constructor models a newly created database. Reopening a file that already holds rows is not modelled, so neither is persistence across restarts.
- Storage failures, such as an unwritable path or a locked database. In the source they propagate as exceptions. The model has none.
- 64-bit integer bounds:
  - SQLite fails an insert once the AUTOINCREMENT id reaches 2^63 - 1.
  - Python's sqlite3 raises `OverflowError` when binding a `LIMIT` above 2^63 - 1 (chefbot.py:81-84), so in the source `get_recent_messages`, and `chat` with such a `context_window`, raise.
  - The model's ids, limits and context windows are unbounded naturals, and such a limit returns the whole table.
- The timestamp column (chefbot.py:60): it reads the clock and is never read back.
- `VeniceAIClient` (chefbot.py:118-163): HTTP, the JSON body, the model name, temperature, token limit and timeout. The provider is a function argument of `Chat` returning `Option<string>`.
- `Bot.Chefbot.Chat`: does not state that the provider is called exactly once, because a pure function argument has no observable call count. The body calls it once.
- `Bot.Chefbot.Chat`: does not model a provider call that raises. `VeniceAIClient.chat` catches only `requests.exceptions.RequestException` (chefbot.py:154-163). A 2xx answer whose JSON lacks `choices[0].message.content` raises `KeyError`, `IndexError` or `TypeError` at chefbot.py:159. A truthy content that SQLite cannot bind, such as a JSON list or object, makes `add_message` raise at chefbot.py:222, and nothing is inserted. In both cases `chat` raises after the user's row is already stored (chefbot.py:208): the caller gets neither a reply nor the apology, and the table keeps only the user's new row. The model's provider always answers, with a string or with `None`.
- The role column's free-form strings: roles are a closed datatype.
- `get_recent_messages` with a negative limit: SQLite reads it as no limit. The limit and the context window are naturals here.
- The default database path, the default `context_window` argument and the `limit: int = 10` default of `get_recent_messages` (chefbot.py:24, chefbot.py:187, chefbot.py:69): the first two are constructor parameters here, and `GetRecentMessages` always takes its limit. `DefaultContextWindow` is 10, as in the source.
- `Chefbot.clear_memory`'s confirmation `print`, the `main` command loop, and environment and `.env` loading (chefbot.py:18, chefbot.py:233-307): these are presentation and configuration.
- The system prompt's wording checks in the tests (test_chefbot.py:108-119): they lowercase the prompt and search for substrings, which is not modelled. The prompt text itself is the constant `SystemPrompt`.
- The browser front end (`script.js`) and its configuration constants: they are a separate client.
