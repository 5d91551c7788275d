# TextRPG chat core in Dafny

TextRPG is a German-language text role-playing game played as a chat. A
FastAPI backend keeps one conversation state per session and routes each
player message through a small graph of LLM-backed agents: a Story Creator
that writes chapters and a Gamemaster that plays them out (with a Setup
agent and a gameplay agent in the second graph). Agents hand over to each
other when the LLM reply carries a transition marker. Replies reach the
browser as a server-sent-event stream, which a TypeScript client
(`SSEService`) and a React hook (`useChat`) turn into the chat screen.

This project models the logic around the LLM calls, one Dafny module per
source file:

- the records and the per-session state (`Messages`, `State`, `Converters`,
  `Commands`): an append-only history with its counter kept in step, agent
  hand-over context and the reset operations;
- the agents (`StoryCreator`, `Gamemaster`, `SetupAgent`, `GameplayAgent`,
  `BaseAgent`, `PromptLoader`): marker detection, the message lists sent to
  the LLM, the setup-data extraction and the prompt clean-up loop;
- the graph (`Nodes`, `NodesAgents`) and the session table
  (`SessionManagement`), including idle cleanup;
- the routes (`ChatRoutes`): the frame sequence of one streamed turn and the
  session endpoints;
- the service layer (`Exceptions`, `MessageUtils`, `LlmService`,
  `LlmStream`, `LangchainService`): error classification and
  recoverability, reply hygiene, request building, response handling,
  stream-line filtering, the trace-run table and the client cache;
- the frontend (`SseService`, `UseChat`): the connection-status machine with
  bounded exponential backoff, and the hook's state driven by the client's
  handler calls, proved end to end for one answered message.

Code that changes state in place is modelled as classes (`ChatState`,
`SessionManager`, `SessionTracker`, `LangchainLlmService`, `SseService`,
`ChatHook`) whose methods are proved to follow a pure function on a value
snapshot of their state; the properties are proved about those functions.
The LLM, JSON decoding, md5, uuid, the clock and the network are
parameters: an oracle function or the value the call produced.
`Wrappers`, `Text` and `Values` hold the shared vocabulary (Option and
Result, Python string operations on `seq<char>`, dynamically typed values
with Python truthiness).

## Model

| member | source | states |
|---|---|---|
| Messages.ParseMessageType | backend/app/models/messages.py:19-21 | a message type is accepted iff it is "human", "ai" or "system", and the accepted kind names itself |
| Messages.ParseTypeName | backend/app/models/messages.py:19-21 | every message kind survives the name round trip |
| Messages.NewChatMessage | backend/app/models/messages.py:18-31 | a message built from type and content gets the generated id and timestamp and empty metadata |
| Messages.NewStreamingChunk | backend/app/models/messages.py:44-47 | a chunk built from its content gets the generated id, is not final and has empty metadata |
| Messages.ValidateChatRequest | backend/app/models/messages.py:55-69 | a request is valid iff its message has 1 to 2000 characters; a valid request keeps all three fields |
| Messages.MessageOnlyRequest | backend/app/models/messages.py:55-58 | session_id and user_id default to none |
| Messages.ParseResponseStatus | backend/app/models/messages.py:79 | an absent status is "success"; a given status is accepted iff it is one of the three names |
| Messages.ParseResponseStatusName | backend/app/models/messages.py:79 | every response status survives the name round trip |
| Messages.ParseStreamStatus | backend/app/models/messages.py:101 | an absent status is "streaming"; a given status is accepted iff it is one of the three names |
| Messages.ParseStreamStatusName | backend/app/models/messages.py:101 | every stream status survives the name round trip |
| State.NewState | backend/app/models/state.py:52-112 | a state built from an id has an empty history with the counter in step, is active, not processing, has no agent and an empty character dict |
| State.WithMessage | backend/app/models/state.py:119-128 | the message is appended at the end, the counter equals the new length, a human message becomes the last user message, other kinds leave it, and nothing else but `last_updated` changes |
| State.WithMessageKeepsPrefix | backend/app/models/state.py:123 | earlier entries are unchanged and the new message sits at the old length |
| State.RecentMessagesSpec | backend/app/models/state.py:130-134 | the result is a suffix of the history; for limit ≥ 1 its length is min(limit, len); limit 0 gives the whole history; a negative limit drops the first -limit entries |
| State.RecentMessages | backend/app/models/state.py:130-134 | the window is never longer than the history, and for a positive limit holds exactly min(limit, len) messages |
| State.Cleared | backend/app/models/state.py:136-143 | history, counter and last user message are reset; session id and creation time and all other fields are kept |
| State.Switched | backend/app/models/state.py:146-158 | agent, trigger and handoff context become exactly the given values; nothing else but `last_updated` changes |
| State.WithStoryContext | backend/app/models/state.py:160-165 | only the story context (and `last_updated`) changes |
| State.WithCharacterInfo | backend/app/models/state.py:167-174 | a missing dict becomes empty first; the result has the union of keys, new keys win, other old keys are kept |
| State.AgentContext | backend/app/models/state.py:176-186 | the context has exactly the five agent keys, each carrying its field (none as null) |
| State.AgentReset | backend/app/models/state.py:188-197 | all agent fields are cleared, the character dict becomes empty, the history and counter are untouched |
| State.ResetContext | backend/app/models/state.py:176-197 | after a reset the agent context reports only nulls and an empty character dict |
| State.CounterPreserved | backend/app/models/state.py:119-197 | every state operation keeps `total_messages == len(messages)` |
| State.ChatState.constructor | backend/app/models/state.py:52-112 | a new object holds exactly `NewState` |
| State.ChatState.AddMessage | backend/app/models/state.py:119-128 | the object's new state is `WithMessage` of the old one |
| State.ChatState.GetRecentMessages | backend/app/models/state.py:130-134 | returns the recent-message window characterised by `RecentMessagesSpec` |
| State.ChatState.ClearMessages | backend/app/models/state.py:136-143 | the new state is `Cleared` of the old one |
| State.ChatState.SwitchAgent | backend/app/models/state.py:146-158 | the new state is `Switched` of the old one |
| State.ChatState.UpdateStoryContext | backend/app/models/state.py:160-165 | the new state is `WithStoryContext` of the old one |
| State.ChatState.UpdateCharacterInfo | backend/app/models/state.py:167-174 | the new state is `WithCharacterInfo` of the old one |
| State.ChatState.GetAgentContext | backend/app/models/state.py:176-186 | returns `AgentContext` of the current state |
| State.ChatState.ResetAgentState | backend/app/models/state.py:188-197 | the new state is `AgentReset` of the old one |
| State.ChatState.SetMessageHash | backend/app/services/message_utils.py:78 | only the stored hash of the last reply changes |
| Converters.LangchainOfType | backend/app/models/converters.py:24-40 | a type string converts iff it is one of the three known names, to the matching class with content and metadata carried over; any other name is an error |
| Converters.PydanticToLangchain | backend/app/models/converters.py:13-40 | a stored message becomes the library class of its type with its content and metadata unchanged |
| Converters.LangchainToPydantic | backend/app/models/converters.py:43-69 | Human, AI and System classes map back to their type and any other class to system, keeping content and metadata |
| Converters.RoundTrip | backend/app/models/converters.py:13-69 | converting there and back preserves type, content and metadata |
| Converters.MessagesToLangchain | backend/app/models/converters.py:72-82 | the list converter keeps length and order, converting each element |
| Converters.MessagesFromLangchain | backend/app/models/converters.py:85-95 | the reverse list converter keeps length and order, converting each element |
| Converters.ListRoundTrip | backend/app/models/converters.py:72-95 | the list round trip keeps length, order and each message's type, content and metadata |
| Converters.CreateMessage | backend/app/models/converters.py:98-149 | a created message has the named type and content, and the given metadata or an empty dict |
| Converters.CreateSystemMessage | backend/app/models/converters.py:98-113 | the created message is a system message with the given content and metadata or an empty dict |
| Converters.CreateAiMessage | backend/app/models/converters.py:116-131 | the created message is an AI message with the given content and metadata or an empty dict |
| Converters.CreateHumanMessage | backend/app/models/converters.py:134-149 | the created message is a human message with the given content and metadata or an empty dict |
| Commands.CreateGotoCommand | backend/app/models/commands.py:20-36 | the command always names the target; the update key is present iff some update was passed, and then holds the updates unchanged |
| Commands.CreateUpdateCommand | backend/app/models/commands.py:39-49 | the command has only an update key, holding the updates |
| StoryCreator.FirstOccurring | backend/app/agents/story_creator.py:61-64 | the in-order scan answers true iff some phrase of the list occurs in the reply |
| StoryCreator.DetectTransition | backend/app/agents/story_creator.py:43-79 | an opening-question phrase gives no transition even beside a marker; otherwise any of the three markers gives (true, "handlungsoptionen_präsentiert"); otherwise no transition |
| StoryCreator.TransitionIffTrigger | backend/app/agents/story_creator.py:61-79 | `should_transition` is true iff a trigger is named |
| StoryCreator.OptionsBlockHandsOver | backend/app/agents/story_creator.py:67-76 | a chapter containing the options block, without the opening question, hands over |
| StoryCreator.QuestionSuppresses | backend/app/agents/story_creator.py:53-64 | a reply with "Was bevorzugst du?" never transitions, whatever surrounds it |
| StoryCreator.LoadPrompt | backend/app/agents/story_creator.py:18-41 | a failed prompt read yields the fixed non-empty fallback; a successful one the cleaned file text |
| StoryCreator.ProcessMessage | backend/app/agents/base_agent.py:34-76 | succeeds iff the model call does; the reply is the model's text and its transition is this agent's `DetectTransition` of it |
| Gamemaster.DetectTransition | backend/app/agents/gamemaster.py:41-50 | the reply contains "--- STORY CREATOR ÜBERGANG ---" iff the result is (true, "neues_kapitel_benötigt"); otherwise no transition |
| Gamemaster.MarkerAlwaysCounts | backend/app/agents/gamemaster.py:46-48 | the marker counts wherever it appears; there is no exclusion list |
| Gamemaster.LoadPrompt | backend/app/agents/gamemaster.py:17-39 | a failed prompt read yields the fixed non-empty fallback; a successful one the cleaned file text |
| Gamemaster.ProcessMessage | backend/app/agents/base_agent.py:34-76 | succeeds iff the model call does; the reply is the model's text and its transition is this agent's `DetectTransition` of it |
| SetupAgent.LoadPrompt | backend/app/agents/setup_agent.py:30-38 | a failed read gives the fixed non-empty fallback; a successful read the extracted prompt |
| SetupAgent.SetupMessages | backend/app/agents/setup_agent.py:52-57 | the system prompt first, then at most ten turns for the last ten messages in order ("human" as user, others as assistant) |
| SetupAgent.BraceMatchEnd | backend/app/agents/setup_agent.py:116 | a match runs from the `{` to the first `}` after it, with at least one character between, and no `}` inside |
| SetupAgent.SearchBrace | backend/app/agents/setup_agent.py:116 | the search returns the leftmost position where the pattern matches, or none when there is no such position |
| SetupAgent.BraceBlock | backend/app/agents/setup_agent.py:116-117 | a found block starts with `{`, ends with its only `}`, and has at least three characters |
| SetupAgent.ExtractSetupData | backend/app/agents/setup_agent.py:106-128 | the parsed first brace block, or the fixed default when there is no block or it does not parse |
| SetupAgent.NoBraceGivesDefault | backend/app/agents/setup_agent.py:123-128 | a reply without any `{` always yields the default setup data |
| SetupAgent.EmptyBracesSkipped | backend/app/agents/setup_agent.py:116 | for every text t, the block found in "{}" + t is the block found in t: an empty pair never matches and the search moves on |
| SetupAgent.SearchBraceShiftFrom | backend/app/agents/setup_agent.py:116 | behind a leading "{}", searching from position from + 2 finds the rest's match from `from`, shifted by two |
| SetupAgent.HandoffUpdate | backend/app/agents/setup_agent.py:90-104 | the update sets the gameplay agent and phase, zeroes both counters, and records a silent handoff from setup_agent to gameplay_agent carrying the data |
| SetupAgent.CheckSetupComplete | backend/app/agents/setup_agent.py:73-104 | no command iff "[SETUP-COMPLETE]" is absent; otherwise the goto-gameplay command with the extracted data |
| SetupAgent.ProcessMessage | backend/app/agents/setup_agent.py:40-71 | a model error propagates; a reply with the marker gives the command; any other reply is returned as text |
| GameplayAgent.LoadPrompt | backend/app/agents/gameplay_agent.py:30-38 | a failed read gives the fixed non-empty fallback; a successful read the extracted prompt |
| GameplayAgent.SetupContext | backend/app/agents/gameplay_agent.py:56-59 | a "Setup-Kontext" message exists iff `handoff_data` is truthy and its inner `handoff_data` is truthy; a truthy non-dict `handoff_data` raises |
| GameplayAgent.GameplayMessages | backend/app/agents/gameplay_agent.py:53-64 | the system prompt first, the setup context second when present, then the turns of the last ten messages in order |
| GameplayAgent.ProcessMessage | backend/app/agents/gameplay_agent.py:40-77 | the loop-built request is exactly `GameplayMessages`; the reply is returned as plain text (never a command); errors propagate |
| GameplayAgent.HandoffReachesLlm | backend/app/agents/gameplay_agent.py:56-59 | non-empty setup data handed over by the setup agent always reaches the model as the setup context |
| BaseAgent.RoleOfType | backend/app/agents/base_agent.py:52-59 | a duck-typed message is kept iff its type is "human", "ai" or "system" |
| BaseAgent.ConvertHistory | backend/app/agents/base_agent.py:47-61 | the converted history never has more entries than the input |
| BaseAgent.ConvertHistoryAppend | backend/app/agents/base_agent.py:47-61 | conversion goes message by message: converting a concatenation concatenates the conversions, so order is kept and nothing is capped |
| BaseAgent.ConvertHistoryComplete | backend/app/agents/base_agent.py:47-61 | when every entry is convertible, each one is sent, one for one and in order |
| BaseAgent.LibraryRoles | backend/app/agents/base_agent.py:48-51 | Human, AI and System library messages are always kept, as user, assistant and system turns |
| BaseAgent.FullMessages | backend/app/agents/base_agent.py:42-61 | the system prompt is the first message and the converted history follows |
| BaseAgent.ProcessMessage | backend/app/agents/base_agent.py:33-76 | the loop-built list is exactly `FullMessages`; the result is the model's reply with `detect(reply)`, and a model error is passed on unchanged |
| BaseAgent.LastWindow | backend/app/agents/setup_agent.py:55 | `messages[-10:]` is the last min(10, len) messages in order |
| BaseAgent.Turns | backend/app/agents/setup_agent.py:56-57 | one turn per message, in order: "human" becomes user, everything else assistant |
| BaseAgent.AppendWindow | backend/app/agents/gameplay_agent.py:62-63 | the loop appends exactly the turns of the last ten messages to the prefix |
| PromptLoader.DropHeading | backend/app/agents/prompt_loader.py:75-77 | the first line is dropped iff there is one and it starts with "# " |
| PromptLoader.SqueezeBlankLines | backend/app/agents/prompt_loader.py:83-84 | the rewrite ends with no "\n\n\n" left and never lengthens the text; termination because each round shortens it |
| PromptLoader.ExtractSystemPrompt | backend/app/agents/prompt_loader.py:59-86 | the method with the rewrite loop returns exactly the extracted prompt |
| PromptLoader.BlankGivesEmpty | backend/app/agents/prompt_loader.py:71-72 | empty or whitespace-only input yields "" |
| PromptLoader.ExtractedPromptShape | backend/app/agents/prompt_loader.py:83-86 | the prompt contains no "\n\n\n" and has no leading or trailing whitespace |
| PromptLoader.FirstLineHeading | backend/app/agents/prompt_loader.py:75-76 | the first split line starts with "# " iff the text does |
| PromptLoader.HeadingDropped | backend/app/agents/prompt_loader.py:75-80 | what reaches the squeeze loop is the whole text, or everything after the heading line when the text starts with "# " |
| PromptLoader.PromptOrFallback | backend/app/agents/prompt_loader.py:89-108 | a failed read gives the fallback; a successful read the extracted prompt |
| PromptLoader.GetStoryCreatorPrompt | backend/app/agents/prompt_loader.py:89-97 | never fails; a failed read gives the fixed non-empty Story Creator fallback |
| PromptLoader.GetGamemasterPrompt | backend/app/agents/prompt_loader.py:100-108 | never fails; a failed read gives the fixed non-empty Gamemaster fallback |
| Nodes.ShouldContinue | backend/app/graph/nodes.py:221-246 | "end" iff the session is inactive; "chat" iff active with a non-empty last user message and processing on; "wait" otherwise |
| Nodes.ShouldContinueReadsThreeFields | backend/app/graph/nodes.py:233-246 | the route depends only on `active`, `last_user_message` and `processing` |
| Nodes.Repaired | backend/app/graph/nodes.py:42-48 | the repaired history ends with a human message; a history already ending with one is untouched; otherwise the last user message is appended as a human message |
| Nodes.ResponseTokens | backend/app/graph/nodes.py:87 | a missing usage entry gives none, a dict usage its completion_tokens, and a non-dict usage raises |
| Nodes.ChatNodeWithoutInput | backend/app/graph/nodes.py:36-38 | without a user message the node returns only {processing: False} and leaves the state untouched |
| Nodes.ChatNode | backend/app/graph/nodes.py:16-146 | with a user message, every path turns processing off, returns the full new history, and leaves the history longer than the repaired one |
| Nodes.ChatContextEndsWithUser | backend/app/graph/nodes.py:42-54 | the model is given between one and ten messages, a suffix of the repaired history ending with a human message |
| Nodes.ChatNodeReply | backend/app/graph/nodes.py:62-92 | a successful reply is appended as the one new message; the dict returns the history and counter in step, processing off, and records the model and token count |
| Nodes.ChatNodeErrorPaths | backend/app/graph/nodes.py:94-146 | on a service error or any other failure exactly one AI message flagged `error: True` is appended and processing is off |
| Nodes.ServiceErrorPathShape | backend/app/graph/nodes.py:94-120 | the service-error path appends one error-flagged AI message and turns processing off |
| Nodes.UnexpectedPathShape | backend/app/graph/nodes.py:122-146 | the generic-error path appends one error-flagged AI message and turns processing off |
| Nodes.UsageNotDictAppendsTwo | backend/app/graph/nodes.py:70-133 | a reply whose usage entry is not a dict is appended and then followed by the unexpected-error apology: two AI messages in one turn |
| Nodes.ChatNodeSettles | backend/app/graph/nodes.py:79-246 | after the node's dict is merged, the router never sends the state straight back to the chat node |
| Nodes.StartNodeGreetsOnce | backend/app/graph/nodes.py:164-192 | an empty session gets exactly the welcome message, a non-empty history is left alone, and the dict is always active and not processing |
| Nodes.StartNode | backend/app/graph/nodes.py:149-218 | on every path the session is reported active and not processing with its full history; the history keeps its old messages and gains at most one |
| Nodes.StartNodeIdempotent | backend/app/graph/nodes.py:165 | running the start node twice greets only once |
| Nodes.StartNodeFallback | backend/app/graph/nodes.py:194-218 | the fallback path appends the short greeting flagged error/fallback, reports active and not processing, and records the error |
| Nodes.GenericChatNode | backend/app/graph/nodes.py:16-146 | the mutable node yields exactly the new state and dict of the `ChatNode` function |
| Nodes.AddUnexpectedError | backend/app/graph/nodes.py:122-146 | the mutable error branch yields exactly the unexpected-error path |
| Nodes.AddReply | backend/app/graph/nodes.py:62-93 | the mutable reply branch yields exactly the reply path: the reply appended, then either the success dict or the apology |
| Nodes.AddServiceError | backend/app/graph/nodes.py:94-120 | the mutable service-error branch yields exactly the service-error path |
| Nodes.RunStartNode | backend/app/graph/nodes.py:149-218 | the mutable start node yields exactly the `StartNode` function's state and dict |
| NodesAgents.ErrorState | backend/app/graph/nodes_agents.py:83-132 | the error path yields the history plus one error message, with every other key as it was |
| NodesAgents.SetupAgentNode | backend/app/graph/nodes_agents.py:50-92 | an agent command is returned unchanged; a text reply yields the old state plus one AI message and current_agent=setup_agent; a failure yields the error state |
| NodesAgents.SetupNodeAppendsOne | backend/app/graph/nodes_agents.py:71-92 | every new state has exactly one message more than the history it was given, keeps that history as prefix, and changes no key but current_agent (none on error) |
| NodesAgents.Increment | backend/app/graph/nodes_agents.py:120 | an integer count goes up by one; None, strings, lists and dicts raise |
| NodesAgents.GameplayAgentNode | backend/app/graph/nodes_agents.py:95-132 | an agent failure or a count that cannot be incremented yields the error state |
| NodesAgents.GameplayTurnCounts | backend/app/graph/nodes_agents.py:110-121 | a successful turn appends the reply, tags gameplay_agent, counts one more interaction (from 0 when absent), and keeps every other key |
| NodesAgents.GameplayStep | backend/app/graph/nodes_agents.py:110-121 | one successful turn adds one to the count and one reply to the history |
| NodesAgents.GameplayErrorKeepsCount | backend/app/graph/nodes_agents.py:123-132 | the error path leaves the count, the current agent and every other key alone |
| NodesAgents.AiMessages | backend/app/graph/nodes_agents.py:110-111 | one AI message per reply, in order |
| NodesAgents.GameplayCountsEveryTurn | backend/app/graph/nodes_agents.py:95-121 | after n successful turns the count has grown by n and the history by exactly the n replies, in order |
| NodesAgents.RunGameplay | backend/app/graph/nodes_agents.py:95-121 | every successful model reply adds exactly one message, including a turn whose counter cannot be incremented, and no key of the state is ever dropped |
| SessionManagement.Lookup | backend/app/graph/session_manager.py:65-82 | a session is returned iff its id is in the table, and it is the stored state |
| SessionManagement.Created | backend/app/graph/session_manager.py:45-60 | the id is added with a fresh state (empty history, active, not processing), replacing any old one; other sessions are untouched |
| SessionManagement.Updated | backend/app/graph/session_manager.py:84-103 | true iff the id is present, and then the state is stored with `last_updated` refreshed; otherwise the table is unchanged |
| SessionManagement.Deleted | backend/app/graph/session_manager.py:105-122 | true iff the id is present; the id is removed and every other session is kept unchanged |
| SessionManagement.DeleteThenGone | backend/app/graph/session_manager.py:105-122 | a deleted session is not found, and deleting it again reports false |
| SessionManagement.CreateThenFound | backend/app/graph/session_manager.py:34-103 | a created session is found fresh and can be updated |
| SessionManagement.SessionInfo | backend/app/graph/session_manager.py:231-253 | none for an unknown id; otherwise exactly six keys carrying the stored id, activity, counter, both times and processing flag |
| SessionManagement.AllSessions | backend/app/graph/session_manager.py:255-266 | one summary per stored id, each equal to that id's session info |
| SessionManagement.Pending | backend/app/graph/session_manager.py:157-159 | the workflow sees the user message set and processing on |
| SessionManagement.ProcessMessageOutcome | backend/app/graph/session_manager.py:124-185 | the session ends up stored under its own id with other sessions untouched; success stores the workflow's state with the id preserved; failure stores it not processing with the user message recorded and re-raises the error |
| SessionManagement.Processed | backend/app/graph/session_manager.py:124-185 | the session is always stored, stamped now; success stores the returned state; failure stores it not processing with the user message recorded |
| SessionManagement.Initialized | backend/app/graph/session_manager.py:187-229 | a missing session is created first; success stores the workflow's state under the same id; failure leaves the session as it was and passes the error on |
| SessionManagement.CleanupPartition | backend/app/graph/session_manager.py:281-291 | the kept sessions are exactly the non-expired ones, unchanged, and kept plus removed make up the whole table |
| SessionManagement.SessionManager.constructor | backend/app/graph/session_manager.py:25 | a new manager has an empty table |
| SessionManagement.SessionManager.CreateSession | backend/app/graph/session_manager.py:34-63 | uses the given id or a fresh one, and the table becomes `Created` of the old one |
| SessionManagement.SessionManager.GetSession | backend/app/graph/session_manager.py:65-82 | returns `Lookup` of the table |
| SessionManagement.SessionManager.UpdateSession | backend/app/graph/session_manager.py:84-103 | table and answer are `Updated` of the old table |
| SessionManagement.SessionManager.DeleteSession | backend/app/graph/session_manager.py:105-122 | table and answer are `Deleted` of the old table |
| SessionManagement.SessionManager.ProcessMessage | backend/app/graph/session_manager.py:124-185 | table and result follow `Processed`, whose outcome `ProcessMessageOutcome` characterises |
| SessionManagement.SessionManager.InitializeSession | backend/app/graph/session_manager.py:187-229 | table and result follow `Initialized` |
| SessionManagement.SessionManager.GetSessionInfo | backend/app/graph/session_manager.py:231-253 | returns `SessionInfo` of the table |
| SessionManagement.SessionManager.GetAllSessions | backend/app/graph/session_manager.py:255-266 | returns `AllSessions` of the table |
| SessionManagement.SessionManager.CollectExpired | backend/app/graph/session_manager.py:282-286 | the first loop lists exactly the expired ids (idle since the cutoff or inactive), each once |
| SessionManagement.SessionManager.DeleteAll | backend/app/graph/session_manager.py:288-291 | the second loop removes exactly the listed ids, keeps the rest unchanged, and counts every deletion |
| SessionManagement.SessionManager.CleanupInactiveSessions | backend/app/graph/session_manager.py:268-298 | the table keeps exactly the non-expired sessions and the count returned is the number of expired ones |
| ChatRoutes.Wire | backend/app/routes/chat.py:67-123 | every frame is "data: " + payload + "\n\n" |
| ChatRoutes.ChunkEvents | backend/app/routes/chat.py:89-102 | one ai_chunk frame per chunk, in order, with ids running 1..N and is_final false |
| ChatRoutes.Resolve | backend/app/routes/chat.py:44-54 | a missing or empty id creates a fresh session; a given unknown id is created; a given known id leaves the table as it was; other sessions are untouched |
| ChatRoutes.LayoutPositions | backend/app/routes/chat.py:61-156 | two opening frames, the chunk frames, the closing frame, and `[DONE]` as the only non-data frame, at the end |
| ChatRoutes.StreamOrder | backend/app/routes/chat.py:61-156 | every stream is session_info, user_message, the N ai_chunk frames, a completion (normal end) or error frame, then `[DONE]`, which appears nowhere else |
| ChatRoutes.FramesOrder | backend/app/routes/chat.py:61-156 | the frame order above, for any session summary and state read by the generator |
| ChatRoutes.CompletionReportsChunks | backend/app/routes/chat.py:85-120 | on a normal end `total_chunks` is N and `complete_response` is the in-order concatenation of the chunks |
| ChatRoutes.ErrorRecoverability | backend/app/routes/chat.py:130-156 | the error frame carries the service exception's recoverable flag, false for any other exception, and the requested id or "unknown" |
| ChatRoutes.ResolveSession | backend/app/routes/chat.py:43-54 | the mutable session lookup follows `Resolve` |
| ChatRoutes.EmitChunks | backend/app/routes/chat.py:85-105 | the chunk loop yields exactly `ChunkEvents`, the concatenation and the chunk count |
| ChatRoutes.EmitFrames | backend/app/routes/chat.py:60-156 | the generator's frames are exactly the modelled frame sequence |
| ChatRoutes.GenerateSseStream | backend/app/routes/chat.py:36-156 | the session table and the frames are those of `Resolve` and `StreamEvents` |
| ChatRoutes.MessagesJson | backend/app/routes/chat.py:186-195 | one JSON entry per stored message, in order |
| ChatRoutes.UnknownSessionGives500 | backend/app/routes/chat.py:176-200 | as written, GET of an unknown session answers 500 with detail "404: Session not found" |
| ChatRoutes.GetSessionAsWritten | backend/app/routes/chat.py:176-200 | as written, the route fails exactly for unknown ids, always with status 500, and otherwise answers what the corrected route answers |
| ChatRoutes.GetSessionRoute | backend/app/routes/chat.py:170-196 | 404 iff the id is unknown; otherwise the summary and the full history, as many entries as the counter |
| ChatRoutes.GetSessionRoutesAgree | backend/app/routes/chat.py:176-200 | the as-written and the corrected route agree on known ids and differ (500 vs 404) only on unknown ones |
| ChatRoutes.DeleteRoute | backend/app/routes/chat.py:225-243 | 404 and no change iff the id is unknown; otherwise the session is removed and "deleted" is reported |
| ChatRoutes.DeleteSessionRoute | backend/app/routes/chat.py:225-243 | the mutable route follows `DeleteRoute` |
| ChatRoutes.CreateSessionRoute | backend/app/routes/chat.py:203-218 | a fresh session is created and reported with its summary and status "created" |
| ChatRoutes.ListSessions | backend/app/routes/chat.py:246-259 | the total is the number of sessions, and each id maps to its summary |
| Exceptions.TypeValueInjective | backend/app/services/exceptions.py:10-42 | distinct error types have distinct string values |
| Exceptions.ClassifyStatus | backend/app/services/exceptions.py:180-193 | a status code decides the type iff it lies in 400–599 |
| Exceptions.ClassifyError | backend/app/services/exceptions.py:166-208 | 401, 429, 404, 503, other 4xx and other 5xx map in that order to key-invalid, rate-limited, model-not-found, overloaded, request-invalid and unavailable; with no status or one outside 400–599 the lowercased text decides |
| Exceptions.ClassifyRange | backend/app/services/exceptions.py:166-208 | classification never yields a response, internal, configuration, quota or context-length type |
| Exceptions.ClassifyText | backend/app/services/exceptions.py:194-208 | the keyword stage yields only a timeout, connection, DNS, too-large, malformed or unknown type, and it is unknown exactly when none of the ten keywords occurs |
| Exceptions.IsRecoverable | backend/app/services/exceptions.py:259-266 | an unknown error, an invalid key or a configuration error is never recoverable |
| Exceptions.ClassifyIgnoresCase | backend/app/services/exceptions.py:177-208 | without a decisive status code, any text and its lowercase form classify alike: keywords are recognised whatever their case |
| Exceptions.ToDict | backend/app/services/exceptions.py:70-79 | the dict carries error type value, message, recoverable, retry_after, details and original error unchanged |
| Exceptions.RetryAfter | backend/app/services/exceptions.py:233-240 | the error's own truthy retry_after wins, else the context's |
| Exceptions.CreateLlmException | backend/app/services/exceptions.py:211-267 | the exception's type is `classify_error(error)`, it is recoverable exactly for the six retryable types, and missing context defaults to model "unknown", timeout 0 and sizes 0 |
| Exceptions.StatusRecoverability | backend/app/services/exceptions.py:93-234 | a 429 always gives a recoverable exception, a 401 never |
| MessageUtils.MessageHash | backend/app/services/message_utils.py:14-24 | the hash is the first eight characters of the MD5 hex digest |
| MessageUtils.Deduplicate | backend/app/services/message_utils.py:51-68 | the content is dropped iff it is a duplicate of the last reply, and otherwise returned unchanged |
| MessageUtils.NoHashNoDuplicate | backend/app/services/message_utils.py:37-38 | without a stored hash nothing is a duplicate |
| MessageUtils.IsDuplicate | backend/app/services/message_utils.py:26-48 | a reply is a duplicate only when a hash is stored and that hash has the eight characters of a message hash |
| MessageUtils.ShouldBlock | backend/app/services/message_utils.py:85-119 | a blank reply is always blocked, and a reply that passes is one that deduplication keeps unchanged |
| MessageUtils.Repetitive | backend/app/services/message_utils.py:108-117 | a reply flagged as repetitive has at least five words and repeats one of them |
| MessageUtils.UpdateMessageHash | backend/app/services/message_utils.py:70-78 | only the stored hash changes, to the hash of the accepted content |
| MessageUtils.AcceptedThenDuplicate | backend/app/services/message_utils.py:26-106 | once a reply's hash is stored, the same reply is a duplicate, is blocked, and is dropped by deduplication |
| MessageUtils.DistinctWords | backend/app/services/message_utils.py:111 | there are never more distinct words than words |
| MessageUtils.ShortBlocked | backend/app/services/message_utils.py:97-102 | a reply under ten characters once stripped is always blocked |
| MessageUtils.DistinctWordsPass | backend/app/services/message_utils.py:85-119 | a long-enough, new reply whose words all differ is not blocked |
| MessageUtils.OneWordRepeatedBlocked | backend/app/services/message_utils.py:108-117 | five or more copies of one word are blocked as repetitive |
| MessageUtils.CollapseSpaces | backend/app/services/message_utils.py:137 | whitespace runs become one space: empty iff the input is, and the first character is whitespace iff the input's is |
| MessageUtils.CollapseSpacesShape | backend/app/services/message_utils.py:137 | afterwards whitespace occurs only as single plain spaces |
| MessageUtils.CollapseSpacesLast | backend/app/services/message_utils.py:137 | a non-space last character stays last |
| MessageUtils.PunctRun | backend/app/services/message_utils.py:140 | the length of the leading run of `.`, `!` and `?` |
| MessageUtils.CollapsePunct | backend/app/services/message_utils.py:140 | runs of sentence marks collapse, so no two marks are adjacent; empty iff the input is |
| MessageUtils.CollapsePunctAll | backend/app/services/message_utils.py:140 | collapsing only drops characters: a property of every input character holds for every output character |
| MessageUtils.CollapsePunctLast | backend/app/services/message_utils.py:140 | the last character stays last |
| MessageUtils.CollapsePunctApart | backend/app/services/message_utils.py:140 | collapsing never brings together two characters of a class that contains no sentence mark |
| MessageUtils.CleanShape | backend/app/services/message_utils.py:121-142 | cleaned text has no surrounding whitespace, only single plain spaces and no two sentence marks in a row |
| MessageUtils.CleanContent | backend/app/services/message_utils.py:121-142 | the cleaned text never has two sentence marks in a row, and it is empty exactly when the input is blank |
| LlmService.RoleRoundTrip | backend/app/services/llm_service.py:171-175 | each message type maps to one of the roles user, assistant, system, and the role maps back to the same type |
| LlmService.ModelOr | backend/app/services/llm_service.py:179 | a non-empty requested model name wins; a missing or empty one falls back to the configured default |
| LlmService.BuildRequest | backend/app/services/llm_service.py:149-186 | the request has exactly the keys model, messages, stream, the five default parameters and the extra keyword arguments; extra arguments override defaults; the messages list converts every message in order |
| LlmService.GetDefault | backend/app/services/llm_service.py:202 | `.get` with a default succeeds exactly on dicts, where it returns the stored value or the default |
| LlmService.First | backend/app/services/llm_service.py:206 | indexing a non-empty list gives its first element; only lists and strings can be indexed |
| LlmService.HandleResponse | backend/app/services/llm_service.py:188-226 | empty or missing choices fail with "No choices in response"; a success is an AI message whose non-empty text is exactly the first choice's message content, with the metadata taken from the response and the choice |
| LlmService.HandleResponseAccepts | backend/app/services/llm_service.py:202-222 | a response whose first choice has non-empty text content is accepted with exactly that text |
| LlmService.ResponseFailuresUnknown | backend/app/services/llm_service.py:203-226 | both failures the handler raises itself become non-recoverable unknown errors carrying their text and the "Invalid response format" context |
| LlmService.NoChoicesUnknown | backend/app/services/llm_service.py:204 | "No choices in response" mentions no classification keyword once lowercased |
| LlmService.EmptyContentUnknown | backend/app/services/llm_service.py:211 | "Empty content in response" mentions no classification keyword once lowercased |
| LlmStream.ChunkContent | backend/app/services/llm_service.py:347-355 | a chunk yields content only when it is non-empty; missing choices or content yield nothing |
| LlmStream.LineStep | backend/app/services/llm_service.py:337-359 | only a line starting with "data: " can stop, fail or yield, and what it yields is non-empty |
| LlmStream.Actions | backend/app/services/llm_service.py:336 | one action per line read |
| LlmStream.Run | backend/app/services/llm_service.py:336-359 | the loop yields at most one content per line |
| LlmStream.RunCons | backend/app/services/llm_service.py:337-359 | one loop turn: a skipped line changes nothing, `[DONE]` ends the stream cleanly, a failure ends it with that error, a content is yielded before the rest |
| LlmStream.StreamChunksTruthy | backend/app/services/llm_service.py:354-355 | every yielded chunk is non-empty |
| LlmStream.RunYieldsTruthy | backend/app/services/llm_service.py:354-355 | the loop yields only the non-empty contents its lines produce |
| LlmStream.StreamCompletion | backend/app/services/llm_service.py:336-373 | the loop yields exactly the stream function's chunks and raises exactly when that function ends in a failure, with the model name as context |
| LlmStream.ActionsAppend | backend/app/services/llm_service.py:336 | each line is judged on its own, so the actions of concatenated lines concatenate |
| LlmStream.RunStops | backend/app/services/llm_service.py:343-344 | nothing after a stop is looked at |
| LlmStream.StreamStopsAtDone | backend/app/services/llm_service.py:343-344 | lines after the `[DONE]` line never change the outcome |
| LlmStream.RunSkips | backend/app/services/llm_service.py:337-338 | skipped actions before the rest change nothing |
| LlmStream.StreamSkipsNoise | backend/app/services/llm_service.py:337-359 | lines that are skipped (blank, non-data, undecodable, no content) change nothing |
| LlmStream.NonDataSkipped | backend/app/services/llm_service.py:337-340 | blank lines and lines without the "data: " prefix are skipped |
| LlmStream.DataLineNotBlank | backend/app/services/llm_service.py:337-341 | a line built as "data: " plus a payload is not blank and carries the prefix |
| LlmStream.DoneLineStops | backend/app/services/llm_service.py:341-344 | a data line whose payload strips to `[DONE]` stops the stream |
| LlmStream.DeltaChunkContent | backend/app/services/llm_service.py:348-352 | a chunk with one choice whose delta holds non-empty text yields that text |
| LlmStream.DeltaLineYields | backend/app/services/llm_service.py:340-355 | a data line decoding to such a chunk yields exactly its text |
| LlmStream.RunYieldsThenStop | backend/app/services/llm_service.py:343-355 | a run of yields followed by a stop gives exactly those contents and no error |
| LlmStream.Framed | backend/app/services/llm_service.py:340-341 | one data line per payload |
| LlmStream.Strs | backend/app/services/llm_service.py:355 | one yielded string per piece of content |
| LlmStream.FramedYields | backend/app/services/llm_service.py:340-355 | in a framed stream, the i-th line yields the i-th piece |
| LlmStream.FramedStops | backend/app/services/llm_service.py:343-344 | in a framed stream, the line after the pieces stops the stream |
| LlmStream.DoneMarkerTrimmed | backend/app/services/llm_service.py:343 | the marker itself strips to `[DONE]` |
| LlmStream.FramedActions | backend/app/services/llm_service.py:336-355 | a framed stream's first actions yield the pieces in order |
| LlmStream.StreamRoundTrip | backend/app/services/llm_service.py:336-359 | data lines carrying non-empty pieces, closed by `[DONE]`, yield exactly those pieces in order with no error, whatever follows |
| LangchainService.RunFor | backend/app/services/langchain_llm_service.py:36-43 | a known session keeps its run id and the table is unchanged; an unknown one is given the fresh id; no other entry changes |
| LangchainService.RunForStable | backend/app/services/langchain_llm_service.py:36-43 | asking again for the same session returns the same run id and leaves the table as it was |
| LangchainService.SessionTracker.constructor | backend/app/services/langchain_llm_service.py:33-34 | a new tracker knows no session |
| LangchainService.SessionTracker.GetOrCreateSessionRun | backend/app/services/langchain_llm_service.py:36-43 | the table and the returned id are those of the run-for-session function |
| LangchainService.SessionTracker.EndSessionRun | backend/app/services/langchain_llm_service.py:45-51 | the session's entry is removed, and an unknown session leaves the table unchanged |
| LangchainService.ChatModel.constructor | backend/app/services/langchain_llm_service.py:121-123 | a client records the model it runs and the parameters it was built with |
| LangchainService.BaseConfig | backend/app/services/langchain_llm_service.py:71-83 | the shared client configuration has exactly the nine listed keys, with the OpenRouter base URL and the configured key |
| LangchainService.RouteRunsRequestedModel | backend/app/services/langchain_llm_service.py:145-163 | the client chosen for a name runs exactly `model or llm_default`, and a fresh custom client is built exactly for a non-empty name that is neither the creator nor the gamemaster model |
| LangchainService.ClassOfName | backend/app/services/langchain_llm_service.py:177-187 | "ai" gives an AI message, "system" a system message, and every other type a human message |
| LangchainService.LangchainOfAgrees | backend/app/services/langchain_llm_service.py:165-189 | the service's own conversion gives the same class and content as the shared message converter, with no extra arguments |
| LangchainService.ConvertMessagesToLangchain | backend/app/services/langchain_llm_service.py:165-189 | the loop converts every message, in order, and nothing else |
| LangchainService.TracingConfig | backend/app/services/langchain_llm_service.py:253-265 | without a session id or with tracing off there is no configuration; otherwise the tags name the session and the call kind and the metadata holds the session id, message count and model (and the streaming flag when streaming) |
| LangchainService.ConvertResponse | backend/app/services/langchain_llm_service.py:191-215 | the reply becomes an AI message with the reply's content, whose metadata is the model name and the `langchain_response` flag, overridden by the reply's metadata, overridden in turn by the extra metadata |
| LangchainService.FailureContext | backend/app/services/langchain_llm_service.py:303-309 | a failure is reported with the model name, the elapsed time, the session id and the flag of the call kind |
| LangchainService.FailureNamesModel | backend/app/services/langchain_llm_service.py:303-313 | a model-not-found failure names the model that was asked for |
| LangchainService.NonEmpty | backend/app/services/langchain_llm_service.py:378-381 | only non-empty contents are passed on, never more than were received |
| LangchainService.PassNonEmpty | backend/app/services/langchain_llm_service.py:377-381 | the loop passes on exactly the non-empty contents and counts them |
| LangchainService.NonEmptyKeepsText | backend/app/services/langchain_llm_service.py:378-381 | dropping empty chunks does not change the concatenated text |
| LangchainService.FlattenSnoc | backend/app/services/langchain_llm_service.py:378-381 | concatenating one more chunk appends its text |
| LangchainService.InitializeAsWritten | backend/app/services/langchain_llm_service.py:89-116 | initialisation fails exactly when the service is not yet initialised and the key is missing or empty |
| LangchainService.MissingKeyRaisesTypeError | backend/app/services/langchain_llm_service.py:96-116 | as written, a missing key ends in a `TypeError` about the missing `error_type` argument, not in a service exception |
| LangchainService.Initialize | backend/app/services/langchain_llm_service.py:89-116 | initialisation fails exactly when the service is not yet initialised and the key is missing or empty, then with a non-recoverable configuration error |
| LangchainService.InitializeMessage | backend/app/services/langchain_llm_service.py:98-116 | that failure's message names the initialisation failure and quotes the key error; as in the call as written, no original error and no details are attached |
| LangchainService.InitializeCorrects | backend/app/services/langchain_llm_service.py:89-116 | the corrected initialisation fails on exactly the inputs the written one does, where the written one raises a `TypeError` instead |
| LangchainService.LangchainLlmService.constructor | backend/app/services/langchain_llm_service.py:59-87 | a new service is not initialised, has no clients yet and an empty session tracker |
| LangchainService.LangchainLlmService.Init | backend/app/services/langchain_llm_service.py:89-116 | the outcome is that of the corrected initialisation, and the service is initialised afterwards exactly when it was before or it succeeded |
| LangchainService.LangchainLlmService.GetDefaultLlm | backend/app/services/langchain_llm_service.py:118-125 | the default client is built once, on first use, with the default model and the shared configuration, and the same client is returned afterwards |
| LangchainService.LangchainLlmService.GetCreatorLlm | backend/app/services/langchain_llm_service.py:127-134 | the creator client is built once, on first use, with the creator model, and reused afterwards |
| LangchainService.LangchainLlmService.GetGamemasterLlm | backend/app/services/langchain_llm_service.py:136-143 | the gamemaster client is built once, on first use, with the gamemaster model, and reused afterwards |
| LangchainService.LangchainLlmService.GetLlmByName | backend/app/services/langchain_llm_service.py:145-163 | no name gives the cached default client, the creator or gamemaster name the cached client for it, any other name a fresh client for that model; all share the base configuration; a client already cached for the route is the one returned, and the other routes' caches are unchanged |
| LangchainService.CachedClientReused | backend/app/services/langchain_llm_service.py:118-163 | two requests for the same configured name return the same client; any other name gets a new client each time |
| LangchainService.LangchainLlmService.SelectLlm | backend/app/services/langchain_llm_service.py:245-276 | the model name is `model or llm_default` and the client runs it; extra parameters give a fresh client whose configuration they override; only the requested route's cache may be filled, keeping a client it already held |
| LangchainService.LangchainLlmService.PrepareCall | backend/app/services/langchain_llm_service.py:245-276 | the client, the converted messages and the tracing configuration of a call; the session's run is registered exactly when a session id is given and tracing is on; only the requested route's cache may be filled |
| LangchainService.LangchainLlmService.ChatCompletion | backend/app/services/langchain_llm_service.py:217-313 | a failed initialisation is raised with the caches and the run table untouched; otherwise the session's run is registered when traced, only the requested route's cache may be filled, a reply becomes the converted AI message with completion time and session id, and a failure is classified with the model name, duration and session id |
| LangchainService.LangchainLlmService.StreamCompletion | backend/app/services/langchain_llm_service.py:315-400 | a failed initialisation is raised before any chunk with the caches and the run table untouched; otherwise the session's run is registered when traced, only the requested route's cache may be filled, exactly the non-empty chunk contents are passed on, and a failure is classified with the streaming context |
| LangchainService.LangchainLlmService.EndSession | backend/app/services/langchain_llm_service.py:402-409 | the session's tracing entry is removed and no other |
| SseService.Merge | frontend/src/services/sseService.ts:36-40 | every field the partial configuration supplies wins and every other keeps its value; an empty partial changes nothing |
| SseService.MergeComposes | frontend/src/services/sseService.ts:339-341 | two updates equal one update with the later fields overriding the earlier, and repeating an update changes nothing |
| SseService.StreamRequestFor | frontend/src/services/sseService.ts:55-59 | the stream URL is `/chat/stream` on the configured base with the message as first query parameter, followed by `session_id` exactly when a non-empty session id is given |
| SseService.Pow2 | frontend/src/services/sseService.ts:299 | the backoff factor is at least 1 |
| SseService.BackoffDoubles | frontend/src/services/sseService.ts:294-299 | the first reconnect waits the configured interval and each further attempt waits twice as long as the one before |
| SseService.Fresh | frontend/src/services/sseService.ts:19-40 | a new client has no source, no timer, no attempts, no handlers, status disconnected and the defaults overridden by the given configuration |
| SseService.WithStatus | frontend/src/services/sseService.ts:313-320 | the status is stored and reported to the connection handler when one is registered; nothing else changes |
| SseService.AfterDisconnect | frontend/src/services/sseService.ts:96-109 | no source, no reconnect timer, no attempts, and disconnected reported; configuration and handlers kept |
| SseService.AfterReconnect | frontend/src/services/sseService.ts:294-308 | one more attempt, with the timer set to the backoff delay of that attempt; nothing else changes |
| SseService.AfterError | frontend/src/services/sseService.ts:275-289 | status error reported, the error forwarded to the error handler, and a reconnect scheduled exactly when the error is recoverable and fewer than the maximum attempts were made |
| SseService.AfterConnect | frontend/src/services/sseService.ts:45-91 | the old connection is dropped and connecting reported; on success the source is opened on the stream URL, on failure a recoverable connection error "Failed to connect: …" is handled |
| SseService.AfterOpen | frontend/src/services/sseService.ts:117-121 | connected is reported and the attempt counter starts over |
| SseService.AfterEvent | frontend/src/services/sseService.ts:195-255 | chunks and completions become messages for the message handler, server errors go through error handling with their own recoverable flag, and every other event changes nothing |
| SseService.AfterData | frontend/src/services/sseService.ts:123-170 | "[DONE]" closes the source, reports disconnected and sends one stream-done message without touching the attempts; data that does not parse is a non-recoverable parse error; other data is handled as its event |
| SseService.AfterErrorEvent | frontend/src/services/sseService.ts:172-189 | a source the browser has closed is a clean disconnect; any other error is a recoverable connection error |
| SseService.AfterTimeout | frontend/src/services/sseService.ts:71-80 | only a connection still connecting times out, as a recoverable timeout error |
| SseService.AfterReset | frontend/src/services/sseService.ts:353-359 | disconnected, no attempts and no handler registered; configuration kept |
| SseService.StepKeepsAttemptsWithin | frontend/src/services/sseService.ts:286-295 | no step takes the attempt counter past the configured maximum or changes the configuration |
| SseService.EventKeepsAttemptsWithin | frontend/src/services/sseService.ts:195-255 | no server event takes the attempt counter past the maximum |
| SseService.RunKeepsAttemptsWithin | frontend/src/services/sseService.ts:286-295 | no sequence of steps takes the attempt counter past the maximum |
| SseService.RunAppend | frontend/src/services/sseService.ts:45-359 | running two sequences of steps is running the second from where the first left off |
| SseService.ChunkCalls | frontend/src/services/sseService.ts:205-220 | one message-handler call per streamed chunk |
| SseService.ChunkInputs | frontend/src/services/sseService.ts:123-159 | one data event per streamed chunk |
| SseService.ChunksForwarded | frontend/src/services/sseService.ts:123-220 | a registered message handler receives every chunk, in order, numbered as the server numbers them, and the chunks change no other field |
| SseService.StreamHeadRun | frontend/src/services/sseService.ts:117-203 | opening reports connected and resets the attempts; the session and echo frames call no handler |
| SseService.StreamTailRun | frontend/src/services/sseService.ts:128-242 | the completion frame sends the completion message, then "[DONE]" reports disconnected and sends the stream-done message |
| SseService.StreamProducesExchange | frontend/src/services/sseService.ts:117-255 | a client with its handlers registered turns one answered message into exactly: connected, one message per chunk, the completion message, disconnected, the stream-done message; it ends with no source and no attempts |
| SseService.RecoverableErrorsCount | frontend/src/services/sseService.ts:275-308 | a run of recoverable errors counts one attempt each up to the maximum, and while under it the timer holds the backoff delay of the last attempt |
| SseService.UnrecoverableErrorsKeepCount | frontend/src/services/sseService.ts:275-289 | non-recoverable errors never schedule a reconnect and leave the status at error |
| SseService.ParseFailureDoesNotReconnect | frontend/src/services/sseService.ts:161-168 | data that does not parse turns the status to error without scheduling a reconnect |
| SseService.DoneSendsOneStreamDone | frontend/src/services/sseService.ts:128-152 | "[DONE]" sends exactly one message, the stream-done message, after the disconnected status |
| SseService.SseService.constructor | frontend/src/services/sseService.ts:36-40 | a new client is the fresh state for the given configuration |
| SseService.SseService.SetConnectionStatus | frontend/src/services/sseService.ts:313-320 | the new state is the status-change function of the old |
| SseService.SseService.Disconnect | frontend/src/services/sseService.ts:96-109 | the new state is the disconnect function of the old |
| SseService.SseService.AttemptReconnect | frontend/src/services/sseService.ts:294-308 | the new state is the reconnect function of the old |
| SseService.SseService.HandleError | frontend/src/services/sseService.ts:275-289 | the new state is the error-handling function of the old |
| SseService.SseService.Connect | frontend/src/services/sseService.ts:45-91 | the new state is the connect function of the old |
| SseService.SseService.OnOpen | frontend/src/services/sseService.ts:117-121 | the new state is the open function of the old |
| SseService.SseService.HandleSseEvent | frontend/src/services/sseService.ts:195-255 | the new state is the event function of the old |
| SseService.SseService.OnData | frontend/src/services/sseService.ts:123-170 | the new state is the data function of the old |
| SseService.SseService.OnErrorEvent | frontend/src/services/sseService.ts:172-189 | the new state is the error-event function of the old |
| SseService.SseService.ConnectionTimeout | frontend/src/services/sseService.ts:71-80 | the new state is the timeout function of the old |
| SseService.SseService.OnMessage | frontend/src/services/sseService.ts:260-262 | a message handler is registered and nothing else changes |
| SseService.SseService.OnError | frontend/src/services/sseService.ts:264-266 | an error handler is registered and nothing else changes |
| SseService.SseService.OnConnection | frontend/src/services/sseService.ts:268-270 | a connection handler is registered and nothing else changes |
| SseService.SseService.IsConnected | frontend/src/services/sseService.ts:332-334 | connected exactly when the status is connected |
| SseService.SseService.GetConnectionStatus | frontend/src/services/sseService.ts:325-327 | reads the status recorded in the client's state, the state every method contract of the client is stated on |
| SseService.SseService.GetConfig | frontend/src/services/sseService.ts:346-348 | reads the configuration recorded in the client's state, which `UpdateConfig` and the constructor determine |
| SseService.SseService.UpdateConfig | frontend/src/services/sseService.ts:339-341 | the configuration is merged with the partial one and nothing else changes |
| SseService.SseService.Reset | frontend/src/services/sseService.ts:353-359 | the new state is the reset function of the old |
| UseChat.TrimStartIndex | frontend/src/hooks/useChat.ts:193-207 | the trimmed text starts at the first character that is not ECMAScript white space |
| UseChat.TrimEndIndex | frontend/src/hooks/useChat.ts:193-207 | the trimmed text ends after the last character that is not ECMAScript white space |
| UseChat.JsTrimSpec | frontend/src/hooks/useChat.ts:141-207 | `trim` gives a slice of the text with no white space at either end, empty exactly when the text is blank |
| UseChat.JsTrim | frontend/src/hooks/useChat.ts:141-207 | `trim` never lengthens the text and leaves no white space at either end |
| UseChat.Initial | frontend/src/hooks/useChat.ts:25-31 | the first render has no messages, nothing typing or loading, no error, not connected, and the given session id when it is non-empty |
| UseChat.Sent | frontend/src/hooks/useChat.ts:190-221 | blank text changes nothing; otherwise the trimmed text is appended as a human message with the current session, loading and typing start, the error is cleared and the stream buffer emptied |
| UseChat.SendThenConnect | frontend/src/hooks/useChat.ts:190-224 | a send whose connection is set up leaves the hook showing the sent message, loading and typing, and not connected |
| UseChat.Chunked | frontend/src/hooks/useChat.ts:129-146 | the chunk is appended to the stream buffer, which becomes the typing text, and the typing timer is set; messages, session, loading and error are unchanged |
| UseChat.Completed | frontend/src/hooks/useChat.ts:151-185 | typing and loading stop, the timer is cleared, one AI message is added exactly when the response is not blank, the session changes only to a present server session that differs from the mount-time one, and the buffer is emptied |
| UseChat.Failed | frontend/src/hooks/useChat.ts:69-75 | the error message is shown and loading and typing stop; messages, buffer and session are kept |
| UseChat.StatusChanged | frontend/src/hooks/useChat.ts:78-89 | connected exactly when the status is connected; connected clears the error and an error status stops loading |
| UseChat.Routed | frontend/src/hooks/useChat.ts:53-66 | AI messages with a chunk id go to the chunk handler, system completion messages to the completion handler with their full text and session, and every other message is appended |
| UseChat.NotifiedAllAppend | frontend/src/hooks/useChat.ts:48-96 | delivering two batches of handler calls is delivering the second after the first |
| UseChat.ChunkRoutes | frontend/src/hooks/useChat.ts:56-58 | every chunk message the client makes reaches the chunk handler with its content |
| UseChat.CompletionRoutes | frontend/src/hooks/useChat.ts:59-61 | every completion message the client makes reaches the completion handler with the server's full text and session |
| UseChat.DoneRoutes | frontend/src/hooks/useChat.ts:62-64 | the stream-done signal is appended as an ordinary message |
| UseChat.ChunksAccumulate | frontend/src/hooks/useChat.ts:129-146 | after any number of chunks the buffer is the old buffer followed by all chunks in order and no message was added; after at least one, it is also the typing text |
| UseChat.ChunkStep | frontend/src/hooks/useChat.ts:129-131 | one more chunk is one more chunk-handler call |
| UseChat.ExchangeTailSettles | frontend/src/hooks/useChat.ts:78-185 | completion, disconnected status and stream-done signal leave the reply (when not blank) and the signal appended, the buffer empty and the hook idle |
| UseChat.ExchangeSettles | frontend/src/hooks/useChat.ts:48-185 | after a whole answered message the hook is idle with the reply and the stream-done signal appended, the error cleared and the server's session adopted unless it equals the mount-time one |
| UseChat.AnsweredMessage | frontend/src/hooks/useChat.ts:48-185 | the handler calls a registered client makes for one answered message leave the hook idle with the reply appended, and the client disconnected with no attempts counted |
| UseChat.ChatCleared | frontend/src/hooks/useChat.ts:273-285 | no messages, no error, nothing typing, an empty buffer and no timer; session, loading and connection flags kept |
| UseChat.TypingTimedOut | frontend/src/hooks/useChat.ts:140-144 | the typing timer commits a non-blank buffer as an AI message under the mount-time session and empties it; otherwise nothing changes |
| UseChat.SessionCreated | frontend/src/hooks/useChat.ts:238-268 | loading ends; a created session becomes current with no messages and no error, a failure shows its message and keeps messages and session |
| UseChat.HealthChecked | frontend/src/hooks/useChat.ts:101-124 | connected and error-free exactly when the health check answered OK; otherwise one of the two "Backend nicht erreichbar" messages is shown |
| UseChat.ChatHook.constructor | frontend/src/hooks/useChat.ts:23-96 | mounting gives the first render's state, a fresh client, and all three handlers registered on it |
| UseChat.ChatHook.HandleAiChunk | frontend/src/hooks/useChat.ts:129-146 | the new state is the chunk function of the old |
| UseChat.ChatHook.HandleStreamCompletion | frontend/src/hooks/useChat.ts:151-185 | the new state is the completion function of the old, with the mount-time session |
| UseChat.ChatHook.OnServiceMessage | frontend/src/hooks/useChat.ts:53-66 | the new state is the routing function of the old |
| UseChat.ChatHook.OnServiceError | frontend/src/hooks/useChat.ts:69-75 | the new state is the error function of the old |
| UseChat.ChatHook.OnServiceStatus | frontend/src/hooks/useChat.ts:78-89 | the new state is the status function of the old |
| UseChat.ChatHook.Deliver | frontend/src/hooks/useChat.ts:48-96 | the handler calls applied in order give the delivery function of the old state |
| UseChat.ChatHook.BeginSend | frontend/src/hooks/useChat.ts:198-220 | the new state is the send function of the old |
| UseChat.ChatHook.SendMessage | frontend/src/hooks/useChat.ts:190-233 | blank text changes nothing; otherwise the client connects with the trimmed text and the current session, and the hook's state is its own send updates followed by every handler call the connection made |
| UseChat.ChatHook.StreamOpened | frontend/src/hooks/useChat.ts:48-96 | the client opens and the hook receives exactly the handler calls that makes |
| UseChat.ChatHook.StreamData | frontend/src/hooks/useChat.ts:48-96 | the client handles the payload and the hook receives exactly the handler calls that makes |
| UseChat.ChatHook.StreamFailed | frontend/src/hooks/useChat.ts:48-96 | the client handles the stream error and the hook receives exactly the handler calls that makes |
| UseChat.ChatHook.ConnectionTimedOut | frontend/src/hooks/useChat.ts:48-96 | the client's connection timer fires and the hook receives exactly the handler calls that makes |
| UseChat.ChatHook.TypingTimeout | frontend/src/hooks/useChat.ts:140-144 | the new state is the typing-timeout function of the old |
| UseChat.ChatHook.ClearChat | frontend/src/hooks/useChat.ts:273-285 | the new state is the clear function of the old |
| UseChat.ChatHook.CreateNewSession | frontend/src/hooks/useChat.ts:238-268 | the new state is the session-creation function of the old |
| UseChat.ChatHook.HealthCheck | frontend/src/hooks/useChat.ts:101-124 | the new state is the health-check function of the old |
| UseChat.ChatHook.Reconnect | frontend/src/hooks/useChat.ts:290-294 | the client disconnects, its status call is delivered, then the error is cleared and the hook shows not connected |
| UseChat.ChatHook.ReconnectCheck | frontend/src/hooks/useChat.ts:296-298 | the hook's connection flag becomes the client's |

## Left out

- Network I/O: LLM calls (`invoke`, `ainvoke`, `astream`, the httpx client), API-key validation, `get_available_models`, the health endpoint and `fetch`. Each call is an input holding the value or error it produced. HTTP status errors of the OpenRouter client are not distinguished from other raised errors.
- md5, uuid, `json.loads`/`json.dumps`, `JSON.parse`, `Date.now` and `datetime.utcnow` are oracle parameters or explicit arguments. Only the logic around them is modelled. md5 is an oracle returning 32 hex characters, and the hash is its first eight.
- The browser `EventSource`, `setTimeout` timers and React rendering. A timer firing or a stream event is an explicit method call (`ConnectionTimedOut`, `TypingTimeout`, `ReconnectCheck`, `StreamOpened`, `StreamData`, `StreamFailed`). Closing a source and clearing a timer are recorded as the field becoming empty.
- The module-level `sseService` singleton that hooks without a configuration share: each `ChatHook` is given its own client, so one hook's `reset` on unmount cannot clear another's handlers in the model.
- `getConfig` returns a copy in the source. Configurations are values here, so the copy and any aliasing it prevents are not modelled; `getConfig` simply reads the field.
- Logging (`structlog`, `console.log`) has no behaviour and is left out.
- Python inputs with no Dafny counterpart are not represented. For example, `classify_error` raises a `TypeError` for a non-integer `status_code`, and `completeResponse.trim()` throws on a non-string; the model's types rule both out.
- An exception thrown by a registered handler inside `onmessage` would be reported as a parse error. Handlers in the model do not throw.
- The `catch` branch of `sendMessage`: `connect` catches every error itself (frontend/src/services/sseService.ts:45-94), so that branch is unreachable and is not modelled.
- Python's `str.lower` is modelled for ASCII and the Latin-1 letters only, which covers every keyword the classifier looks for.
- `should_block_message` compares the float ratio `unique / total < 0.3`; the model compares `10 * unique < 3 * total`, which agrees with the float comparison for every message of fewer than 10^15 words.
- The Story Creator's and the Gamemaster's own placeholder prompts in `load_prompt` are unreachable, because `get_story_creator_prompt` and `get_gamemaster_prompt` catch every load failure and return their own fallback; for these two agents only the loader's fallbacks are modelled. The Setup and Gameplay agents read the file directly and fall back to their own placeholder prompts, which are modelled.
- `ChatState` (backend/app/models/state.py) defines neither `set_message_hash` nor `last_message_hash`, yet backend/app/services/message_utils.py:37-82 uses both. They are modelled as a `lastMessageHash` field that stores `generate_message_hash(content)`.
- `SessionManager` (backend/app/graph/session_manager.py) defines no `stream_process_message`, which backend/app/routes/chat.py:89 calls. The stream's reply is an abstract source of chunks followed by a normal end or a failure; failures raised before the first frame (in the session manager itself) are not modelled.
- The compiled LangGraph workflow is a function from the state to a new state or an error. A workflow that mutates or aliases the state object it is given is not modelled.
- The error paths of the agent nodes in `nodes_agents.py` do not touch `processing`, and the model keeps it so; only the generic chat node's error paths reset it.
- Agent and service singleton getters, the LangGraph wiring, settings and environment loading, and prompt file reading (its text or error is an input) are left out.
- `LangchainService.LangchainLlmService.ChatCompletion`: a failed initialisation is returned as an error instead of escaping `chat_completion`, and the initialisation is the corrected one (see Findings).
- `LangchainService.LangchainLlmService.StreamCompletion`: the chunk contents are given as text; a non-text `content` from the library is not modelled.

## Findings

| source | as written | input that shows it | evidently intended | confidence | as-written member | corrected member |
|---|---|---|---|---|---|---|
| backend/app/routes/chat.py:176-200 | `get_session` raises `HTTPException(404)` for an unknown id inside a `try` whose generic `except Exception` turns it into a 500 with detail "404: Session not found" | GET /chat/session/missing on an empty table | 404 "Session not found", as `delete_session` answers | not executed | ChatRoutes.UnknownSessionGives500 | ChatRoutes.GetSessionRoute |
| backend/app/services/langchain_llm_service.py:96-116 | `initialize` wraps the missing-key error in `LLMServiceException(message)`, whose constructor (backend/app/services/exceptions.py:50-58) also requires `error_type`, so the call raises a `TypeError` instead of a service exception | `initialize()` with no OpenRouter API key configured | a non-recoverable configuration error whose message quotes the key error | not executed | LangchainService.MissingKeyRaisesTypeError | LangchainService.Initialize |
