# Multi-agent customer service system in Dafny

This project models the core of a customer-service system built from
cooperating agents. A **router** turns a customer's free-text request into
one or more symbolic intents, using a language-model classifier with a
keyword fallback. It builds one request **envelope** per intent and sends
each to a **specialist** agent. There are two specialists: a customer-data
agent and a support agent. The router then merges the replies into an
ordered result list, flagging the intents that need escalation.

Each specialist validates the envelope and runs its handler once per intent.
It answers with a `response` envelope, or with an `error` envelope that
mirrors the request. The handlers reach a **tool host**, which normalises
tool arguments and runs operations over two tables, customers and tickets.

Every module is made of pure functions over immutable values. JSON values
are modelled by `Json.Value`, and a message is a `map<string, Value>`.
Everything the system gets from outside becomes a parameter:

- the language model's reply, and the outcome of each HTTP attempt;
- each peer's HTTP outcome;
- the tool host's reply;
- `json.loads` (a `string -> Option<Value>` oracle);
- the uuid/timestamp triple of each new envelope (`Envelope.Stamp`);
- the clock value written by table updates.

| module | file | models |
|---|---|---|
| `Wrappers`, `Text`, `Json` | wrappers.dfy, text.dfy, json.dfy | `Option`/`Result`; `str.lower`, `str.strip`, `in`, `find`, `str(n)`; Python values, truthiness, `dict.get` |
| `Envelope` | envelope.dfy | envelope creation, schema check, error mirroring |
| `Connector` | connector.dfy | `send_message` and `invoke_tool` result shaping |
| `Extract`, `Llm` | extract.dfy, llm.dfy | `clean_json_text` and the `query_llm` attempt loop |
| `Router` | router.dfy | fallback classifier, `build_agent_task`, `query_endpoint` |
| `Dispatch` | dispatch.dfy | the shared specialist `/a2a` pattern |
| `DataAgent`, `SupportAgent` | data_agent.dfy, support_agent.dfy | the two specialists' intent handlers |
| `Pipeline` | pipeline.dfy | router tasks meeting the specialists |
| `Store`, `ToolHost` | store.dfy, tool_host.dfy | the table operations and the tool host's argument normalisation |

## Model

| member | source | states |
|---|---|---|
| Envelope.CreateMessage | agents/agent_client.py:27-38 | The envelope always passes the schema check. It carries the given sender, recipient, intent and type. The payload is the content when truthy and `{}` otherwise. The correlation id is the caller's when truthy and a fresh token otherwise. |
| Envelope.MissingKeys | agents/agent_client.py:42 | A key is reported exactly when it is required and absent. The keys are reported in the order of the required list. |
| Envelope.CheckSchema | agents/agent_client.py:40-45 | An envelope is valid exactly when all seven required keys are present. Otherwise the error names every missing key, and no other, in required order. |
| Envelope.RequiredKeysSpelledOut | agents/agent_client.py:40-45 | Testing the seven keys one by one agrees with requiring every key of the required list. |
| Envelope.ReportsEveryMissingKey | agents/agent_client.py:40-45 | A message lacking two required keys is rejected naming both. |
| Envelope.ReprItems | agents/agent_client.py:44 | The rendered list is empty exactly for no keys, and it contains every key quoted. |
| Envelope.ReprList | agents/agent_client.py:44 | The rendering is bracketed and contains every key quoted. |
| Envelope.SchemaErrorText | agents/agent_client.py:43-44 | The error text starts with `Invalid A2A Message. Missing: `, ends with `]`, and names every missing key in quotes. |
| Envelope.ErrorResponse | agents/agent_client.py:47-55 | The error reply is a valid `error` envelope with payload `{"error": text}`. Its sender and recipient are the original's recipient and sender, or `"unknown"`. It keeps the intent (default `"error"`), and keeps a truthy correlation id. |
| Envelope.MirrorTwice | agents/agent_client.py:47-55 | Mirroring an error twice restores the original sender, recipient, intent and truthy correlation id. |
| Connector.SendMessage | agents/agent_client.py:68-82 | An invalid envelope gives the schema error text without being sent. A 200 reply with a decodable body gives that body unchanged. A non-200 status gives `HTTP <status>: <text>`. An unreachable peer gives its reason. Every other outcome is a `{"status": "error", "error": ...}` value, never an exception. |
| Connector.InvalidMessageNotSent | agents/agent_client.py:70-74 | For an invalid envelope, the result does not depend on the network's outcome. |
| Connector.InvokeTool | agents/agent_client.py:99-122 | The result is the first content block, decoded when it parses and taken raw when it does not. No content gives the `"No content returned from tool"` error. A host failure gives an `error` value carrying the reason. |
| Connector.OnlyFirstBlockRead | agents/agent_client.py:110-116 | Content blocks after the first never change the result. |
| Extract.ExtractIsSubstring | agents/llm_service.py:15-21 | Whichever tier applies, the extracted text is a contiguous piece of the reply. |
| Extract.FencedBlock | agents/llm_service.py:17-18 | The first tier applies exactly when some ```` ```json ```` marker has a closing fence after it. Its text never starts or ends with white space. |
| Extract.BraceSpan | agents/llm_service.py:19-20 | The second tier's text opens with `{` and closes with `}`. |
| Extract.BraceSpanIff | agents/llm_service.py:19-20 | The second tier applies exactly when some `{` comes before some `}`. |
| Extract.CleanJsonText | agents/llm_service.py:15-21 | The extracted text is no longer than the reply and never starts or ends with white space. |
| Extract.FencedTierIsLeftmostLazy | agents/llm_service.py:17-18 | When a fenced block matches, the result is the stripped text between the leftmost ```` ```json ```` marker and the nearest closing fence after it. |
| Extract.BraceTierIsGreedy | agents/llm_service.py:19-20 | Without a fenced block, the result runs from the first `{` to the last `}`. |
| Extract.PlainTier | agents/llm_service.py:21 | With neither pattern matching, the result is the stripped reply. |
| Extract.TiersAgree | agents/llm_service.py:15-21 | An object text is recovered unchanged whether it is bare, fenced, or surrounded by prose. |
| Extract.BareRoundTrip | agents/llm_service.py:15-21 | A bare object text comes back unchanged. |
| Extract.FencedRoundTrip | agents/llm_service.py:17-18 | An object text inside a ```` ```json ```` fence comes back unchanged. |
| Extract.SurroundedRoundTrip | agents/llm_service.py:19-20 | An object text between prose holding no braces and no fence comes back unchanged. |
| Extract.GreedyAcrossObjects | agents/llm_service.py:19-20 | Two objects separated by prose come back as one span covering both, not as the first object. |
| Llm.QueryLlm | agents/llm_service.py:44-77 | At most two attempts are made, and only a 503 or a request exception moves on to the next. Any other status, or a reply without choices, gives no answer. JSON mode gives the parsed extraction of the first choice. Text mode gives the stripped first choice. |
| Router.FirstFiring | agents/router_agent.py:100-106 | Returns the first rule that fires, with no earlier rule firing, or reports that none fires. |
| Router.FallbackIntent | agents/router_agent.py:96-109 | The fallback always yields one of the ten known intents. |
| Router.RuleMeanings | agents/router_agent.py:100-105 | States the keyword test of each fallback rule. |
| Router.FallbackIsFirstFiringRule | agents/router_agent.py:98-106 | The fallback's intent is the intent of the first rule that fires on the lower-cased text, or `support_request` when none fires. |
| Router.FallbackIgnoresCase | agents/router_agent.py:98 | Texts that are equal after lower-casing get the same fallback intent. |
| Router.Classify | agents/router_agent.py:83-109 | A non-empty object reply is used as is, with `intents` defaulting to `[]` and `entities` to `{}`. Any other reply gives exactly one fallback intent and no entities. |
| Router.FallbackClassification | agents/router_agent.py:95-109 | An unusable reply is classified as a list holding the single fallback intent, with no entities. |
| Router.StatusFilter | agents/router_agent.py:125-133 | The status is the `status_filter` entity, else `"active"` when the text mentions it. A truthy string status is lower-cased and has no upper-case letter. A truthy non-string status raises. |
| Router.IsEmailChar | agents/router_agent.py:140 | The class `[\w.-]` contains `_`, `.` and `-`, and contains neither `@` nor white space. |
| Router.RunEnd | agents/router_agent.py:140 | Returns the end of the maximal run of `[\w.-]` characters (ASCII class, see Left out). |
| Router.EmailMatchAt | agents/router_agent.py:140 | The pattern matches at a position exactly when a non-empty run of the class there is followed by `@` and one more character of the class. |
| Router.EmailAt | agents/router_agent.py:141 | The matched text is a run of the class, `@`, and a run of the class. It starts at the match and extends as far as the class does. |
| Router.FindEmailStart | agents/router_agent.py:140 | Returns the leftmost start of an email-shaped match, with none before it. |
| Router.SearchEmail | agents/router_agent.py:140-141 | Finds nothing exactly when the pattern matches nowhere. Otherwise it returns the text of the match at the leftmost position where the pattern matches. |
| Router.EmailUpdates | agents/router_agent.py:136-143 | The update is the truthy `email` entity, else the first email-shaped token of the text, else `{}`. |
| Router.EscalationFlag | agents/router_agent.py:144-159 | The flag set branch by branch is exactly membership in the five escalating intents. |
| Router.RouteOf | agents/router_agent.py:119-150 | The four data intents go to the data specialist, and every other value, including an unknown intent, goes to the support specialist. |
| Router.TaskPayload | agents/router_agent.py:119-156 | Every payload carries `customer_id`. Support payloads add the text and entities. A listing carries the status filter. An email update carries the updates exactly when the entities form an object. |
| Router.MakeTask | agents/router_agent.py:164-171 | The request is a valid `request` envelope from `router` to the specialist's name, with the payload given. |
| Router.BuildTask | agents/router_agent.py:114-171 | A task is built exactly when its payload can be. It is routed to the data specialist exactly for the four data intents. It is flagged exactly for the escalating intents, and carries a valid envelope from `router`. |
| Router.KnownIntentBuilds | agents/router_agent.py:114-171 | Every known intent builds a task when there are no entities. |
| Router.EscalationTable | agents/router_agent.py:144-159 | Over all ten known intents, escalation is flagged exactly for the five escalating ones. |
| Router.Unwrap | agents/router_agent.py:204-227 | An exception gives `error` and its text. A non-dictionary gives `error` and no data. A non-empty payload list gives its first item, with that item's status (default `ok`). Any other payload gives `ok` and the payload. With no payload, the reply's status (default `unknown`) comes with its `data` or `error`. |
| Router.ErrorEnvelopeReadsOk | agents/router_agent.py:212-223 | A specialist's error envelope is read as `ok`, with the `{"error": ...}` map as data. |
| Router.UnreachablePeerReadsError | agents/router_agent.py:224-227 | An unreachable peer reads as `error` with the failure text as data. |
| Router.EntryFor | agents/router_agent.py:229-234 | Each entry keeps its task's intent and escalation flag, and carries the status and data read out of the reply. |
| Router.IterateIntents | agents/router_agent.py:191 | A list yields its items and a string yields its characters. Any other value cannot be iterated. |
| Router.BuildTasks | agents/router_agent.py:189-195 | There is one task per intent, in order, each built from its own intent. The batch fails only if some intent's task fails to build. |
| Router.FanOut | agents/router_agent.py:194-234 | There is one entry per task, in task order, with the task's intent and flag. The i-th entry is the i-th task exchanged with the i-th peer. An unreachable peer gives `error` with its reason. |
| Router.Exchange | agents/router_agent.py:194-234 | One task's entry keeps the task's intent and flag. A peer that answers 200 with a JSON body gives the status and data unwrapped from that body. An unreachable peer gives `error` with its reason. Any other HTTP status gives `error` with `HTTP <code>: <text>`. |
| Router.FanOutIsolated | agents/router_agent.py:194-234 | The i-th entry of the fan-out is the same under any two peer outcomes that agree at i. |
| Router.AnswerIntents | agents/router_agent.py:189-234 | There is one entry per intent, in order, each with its intent and flagged exactly when the intent escalates. The i-th entry is the i-th intent's task exchanged with the i-th peer. A peer that answers 200 with a JSON body gives the status and data unwrapped from that body. An unreachable peer gives `error` with its reason. The endpoint crashes exactly when some intent's task cannot be built. |
| Router.AnswersAreIsolated | agents/router_agent.py:189-234 | Whether the intents are answered does not depend on the peers, and the i-th entry depends only on the i-th peer. |
| Router.HandleQuery | agents/router_agent.py:177-237 | The request is rejected exactly when the text or customer id is missing. Otherwise there is one entry per classified intent, in order, each flagged exactly when its intent escalates. A peer that answers 200 with a JSON body gives the status and data unwrapped from that body. An unreachable peer's entry reads as an error. |
| Router.PartialFailure | agents/router_agent.py:177-237 | With two intents, an unreachable first peer and a second peer answering `{"payload": [d]}` (no `status` in `d`), the query is still answered: the first entry is `error` with the connection error, the second is `ok` with `d`. |
| Router.PartialFailureEntries | agents/router_agent.py:194-234 | The two entries of that scenario, at the level of the built tasks. |
| Router.SinglePayloadReadsOk | agents/router_agent.py:212-220 | A one-item payload whose item has no `status` reads as `ok` with the item as data. |
| Router.AnsweredWith | agents/router_agent.py:177-237 | The endpoint answers exactly when the text and customer id are present and every task can be built. The answer is then the entries of the iterated intents. |
| Router.FallbackAlwaysAnswers | agents/router_agent.py:95-199 | An unusable classifier reply never crashes the endpoint: it gives exactly one result. |
| Router.SingleIntentAnswers | agents/router_agent.py:189-234 | A single intent whose task can be built is answered with exactly one entry. |
| Router.NoIntentsNoResults | agents/router_agent.py:186-237 | An empty intent list gives an answer with zero results. |
| Router.EntriesAreIsolated | agents/router_agent.py:199-234 | Each entry depends only on its own peer's outcome. |
| Dispatch.IntentList | agents/customer_data_agent.py:79-80 | A list of intents is kept as is, and a single intent becomes a one-element list. |
| Dispatch.RunAll | agents/customer_data_agent.py:84-85 | On success there is one result per intent, in order, each the handler's value. On failure, the error is that of a raising intent, and every earlier intent returned. |
| Dispatch.RunAllRaises | agents/customer_data_agent.py:84-85 | One raising handler fails the whole batch. |
| Dispatch.AllDoneRuns | agents/customer_data_agent.py:84-85 | When no handler raises, the batch succeeds. |
| Dispatch.Respond | agents/customer_data_agent.py:70-100 | The reply is always a valid envelope. An invalid request gets the error envelope naming the missing keys, and a raising intent gets the error envelope with its text. Otherwise the reply is a `response`. |
| Dispatch.SuccessReply | agents/customer_data_agent.py:89-96 | A successful reply goes from the specialist back to the requester. It carries the intents in order and one result per intent (`{}` when there are none), and keeps a truthy correlation id. |
| Dispatch.OneFailureFailsAll | agents/support_agent.py:136-144 | When any intent raises, the reply is an `error` envelope carrying an `error` text and no results. |
| Dispatch.ResponseAnswersRequest | agents/support_agent.py:136-141 | When no handler raises, the reply is a `response` to the requester that echoes the intents. |
| DataAgent.NormalizePayload | agents/customer_data_agent.py:35-37 | A dictionary holding `customer_id` is cut down to that key alone. Any other dictionary passes unchanged. The result's entries are all entries of the input. A scalar, or a list or string holding the key, raises. |
| DataAgent.NormalizeIdempotent | agents/customer_data_agent.py:35-37 | Normalising twice is normalising once. |
| DataAgent.PlanIntent | agents/customer_data_agent.py:42-65 | Each served intent maps to its tool call, and the others to the `Unknown intent` value. An email update without `customer_id` raises `'customer_id'`. Only a malformed payload raises. |
| DataAgent.HandleIntent | agents/customer_data_agent.py:42-65 | The handler raises exactly when the plan fails. A planned call returns the tool's decoded reply. |
| DataAgent.HostFailureIsAnswered | agents/customer_data_agent.py:42-65 | Tool-host failures are returned as error values, never raised. |
| DataAgent.UnknownIntentIgnoresHost | agents/customer_data_agent.py:64-65 | An unserved intent is answered without the tool host. |
| DataAgent.HandleA2A | agents/customer_data_agent.py:70-100 | The reply is a valid `response` from `customer_data_agent`, or an `error` envelope. |
| DataAgent.CustomerPayloadIsAnswered | agents/customer_data_agent.py:42-100 | A valid request whose payload holds `customer_id` always gets a `response` to its sender. |
| SupportAgent.Polite | agents/support_agent.py:50-54 | The result is the model's text when it is non-empty, else `Action processed: <action>`. It is never empty. |
| SupportAgent.Decorate | agents/support_agent.py:113-126 | A list is wrapped beside `answer_text`. A dictionary gains `answer_text` and keeps its other keys. Anything else is returned unchanged. |
| SupportAgent.StaticAnswer | agents/support_agent.py:68-82 | Exactly the four account requests have static answers, with status `ok`. A refund adds its `refund_id`. |
| SupportAgent.TicketsFound | agents/support_agent.py:90-94 | A non-empty list gives `Found N tickets.` with N its length, and anything else gives `No tickets found.` |
| SupportAgent.TicketLookup | agents/support_agent.py:88 | The look-up calls `list_tickets` for the one customer, with no status or priority filter. |
| SupportAgent.HandleIntent | agents/support_agent.py:59-126 | A non-dictionary payload raises. A ticket look-up without a customer gives `Missing customer_id`. Otherwise a look-up decorates the listed tickets. Only a malformed payload or an escalation can raise. An unknown intent gives `Unknown intent`. |
| SupportAgent.EscalationFilesTicket | agents/support_agent.py:98-107 | An escalation answers with the created ticket plus `answer_text`. The sentence is the model's, or without one `Action processed: Escalation Ticket #<id> created.` with the ticket's id. |
| SupportAgent.EscalationCall | agents/support_agent.py:100-104 | The escalation calls `create_ticket` for the customer with the reason as the issue and priority `medium`. |
| SupportAgent.NoToolIntentsIgnoreHost | agents/support_agent.py:68-110 | Requests that need no tool are answered independently of the tool host. |
| SupportAgent.AnswersAreVoiced | agents/support_agent.py:112-124 | Every static answer carries a non-empty chat sentence. |
| SupportAgent.HandleA2A | agents/support_agent.py:128-144 | The reply is a valid `response` from `support_agent`, or an `error` envelope. |
| SupportAgent.ObjectPayloadIsAnswered | agents/support_agent.py:59-141 | A valid request with a dictionary payload and no escalation intent always gets a `response` to its sender. |
| Pipeline.DataTasksAreAnswered | agents/router_agent.py:119-122 | Every data task the router builds gets a `response` back to `router` from the data specialist. |
| Pipeline.SupportTasksAreAnswered | agents/router_agent.py:147-156 | Every support task that asks for no escalation is built, and gets a `response` back to `router`. |
| Store.ParseStatus | mcp_server/database_setup.py:26 | Parsing and naming are exact inverses for the status vocabulary. |
| Store.ParseTier | mcp_server/database_setup.py:27 | Parsing and naming are exact inverses for the tier vocabulary. |
| Store.ParseTicketStatus | mcp_server/database_setup.py:40 | Parsing and naming are exact inverses for the ticket-status vocabulary. |
| Store.ParsePriority | mcp_server/database_setup.py:41 | Parsing and naming are exact inverses for the priority vocabulary. |
| Store.VocabularyRoundTrip | mcp_server/database_setup.py:26-41 | Every vocabulary word reads back as itself. |
| Store.FindCustomer | mcp_server/db_utils.py:20-21 | Returns the first row with the key, or reports that none exists. |
| Store.FetchCustomer | mcp_server/db_utils.py:17-23 | A row is found exactly when the customer exists, and it has that id. |
| Store.Filter | mcp_server/db_utils.py:46-47 | The kept rows are exactly the rows that satisfy the condition. |
| Store.FilterConcat | mcp_server/db_utils.py:46-47 | Filtering a concatenation filters each part. |
| Store.FilterAgrees | mcp_server/db_utils.py:46-47 | Conditions that agree on every row keep the same rows. |
| Store.FilterArg | mcp_server/db_utils.py:34-44 | An absent or empty filter means no filter. A vocabulary word filters, and any other value is rejected. |
| Store.Limit | mcp_server/db_utils.py:49-51 | A positive limit keeps that many rows from the front, and otherwise all rows are kept. |
| Store.MatchingCustomers | mcp_server/db_utils.py:34-47 | The matching customers are exactly the rows whose status and tier equal the truthy filters. |
| Store.FetchCustomers | mcp_server/db_utils.py:25-56 | The status is checked before the tier, and the listing fails exactly when one of them is not a vocabulary word. The result is the first `limit` matching rows in table order when the limit is positive, and every matching row otherwise. |
| Store.ParsedCustomerFilters | mcp_server/db_utils.py:34-47 | The parsed filters keep exactly the rows the text filters match. |
| Store.TextColumn | mcp_server/db_utils.py:80-88 | Text is stored as is, `None` as NULL and a 64-bit integer as its decimal text. Binding fails exactly for lists, dictionaries and integers outside SQLite's signed 64-bit range, the last with the `OverflowError` text. |
| Store.TextUpdate | mcp_server/db_utils.py:79-88 | A field the update does not name keeps its value. A named one is stored as bound, and fails exactly for lists, dictionaries and integers outside 64 bits. |
| Store.OversizedNumberNotBound | mcp_server/db_utils.py:79-88 | An update with an integer one past the 64-bit maximum fails with the `OverflowError` text, and the maximum itself is stored as its decimal text. |
| Store.FirstWhere | mcp_server/db_utils.py:62-64 | Returns the first key in order that has the property, or reports that none has it. |
| Store.FirstUnbindable | mcp_server/db_utils.py:79-88 | Returns the first key, in the update's key order, whose value cannot be bound, or reports that all can. |
| Store.ApplyUpdate | mcp_server/db_utils.py:79-94 | Binding fails on the first unbindable value in the update's key order, then a null name fails NOT NULL, and otherwise the update succeeds. Each named field takes its bound value, with status and tier the named words. Other fields keep their values, the id and creation time are kept, and the update time is set. |
| Store.FirstInvalidKey | mcp_server/db_utils.py:62-64 | Returns the first key, in iteration order, outside the allowed set, or reports that there is none. |
| Store.ModifyCustomer | mcp_server/db_utils.py:58-94 | Errors come in the source's order: field name, status, tier, unknown customer, empty update, then binding. On success the returned row is the stored row with the update applied, only that row changes, and the tickets do not. |
| Store.ReplaceKey | mcp_server/db_utils.py:84-88 | Exactly the rows with the key are replaced. |
| Store.ModifyKeepsConsistent | mcp_server/db_utils.py:58-94 | An update keeps keys unique and every ticket's customer present. |
| Store.AddTicket | mcp_server/db_utils.py:99-122 | Fails exactly for an unknown priority or customer, in that order. Otherwise it appends one `open` ticket with the next id and leaves the customers unchanged. |
| Store.AddKeepsConsistent | mcp_server/db_utils.py:99-122 | Filing a ticket keeps the tables consistent. |
| Store.TicketsOf | mcp_server/db_utils.py:134-135 | Returns exactly that customer's tickets. |
| Store.MatchingTickets | mcp_server/db_utils.py:140-168 | The matching tickets are exactly the tickets of the listed customers whose status and priority equal the truthy filters. An empty id list matches none. |
| Store.FetchCustomerHistory | mcp_server/db_utils.py:124-138 | Succeeds exactly when the customer exists, returning the row and exactly their tickets. |
| Store.FetchTickets | mcp_server/db_utils.py:140-183 | An empty id list gives no tickets. The status is checked before the priority, and the listing fails exactly when a truthy one is not a vocabulary word. The tickets listed are exactly the matching ones. |
| Store.ParsedTicketFilters | mcp_server/db_utils.py:140-168 | The parsed filters keep exactly the tickets the text filters match. |
| Store.FiledTicketIsListed | mcp_server/db_utils.py:99-168 | A filed ticket appears in its customer's listing and history. |
| ToolHost.CustomerValue | mcp_server/app.py:28-29 | The row document has the nine columns, with the id, status and tier of the row. |
| ToolHost.TicketValue | mcp_server/app.py:76-77 | The ticket document has the six columns, each holding the row's value: id, customer, issue, status word, priority word and creation time. |
| ToolHost.CustomerRows | mcp_server/app.py:54-55 | There is one document per row, in order. |
| ToolHost.CustomerRowsListAll | mcp_server/app.py:54-55 | Every row has its document in the listing. |
| ToolHost.TicketRows | mcp_server/app.py:92-93 | There is one document per ticket, in order. |
| ToolHost.TicketRowsListAll | mcp_server/app.py:92-93 | Every ticket has its document in the listing. |
| ToolHost.HistoryTicketsSound | mcp_server/db_utils.py:134-135 | When the given tickets are all the customer's, every document in their listing carries the customer's id and is that of one of the customer's tickets in the table. |
| ToolHost.NormalizeChoice | mcp_server/app.py:37-46 | A truthy filter is lower-cased and stripped, and kept exactly when it is a vocabulary word. A falsy one is left unchanged. |
| ToolHost.LowerTruthy | mcp_server/app.py:89-90 | A truthy filter is lower-cased, and a falsy one is left unchanged. |
| ToolHost.GetCustomer | mcp_server/app.py:25-29 | Gives JSON `null` exactly for an unknown customer, and otherwise the full document of the row with that id. |
| ToolHost.ListCustomers | mcp_server/app.py:31-55 | The listing never fails. Its documents are those of the first `limit` customers, in table order, that match the cleaned filters. Without a positive limit every matching customer is listed. |
| ToolHost.DefaultListingIsBounded | mcp_server/app.py:32 | With the tool's default limit at most ten customers are listed. |
| ToolHost.ListingAppliesFilters | mcp_server/app.py:31-55 | Every listed customer has the cleaned status and tier. |
| ToolHost.ListedRows | mcp_server/app.py:49-54 | Cleaned filters list the first `limit` matching rows, every matching row without a positive limit, and only rows that match. |
| ToolHost.CleanedFiltersPass | mcp_server/app.py:37-46 | A cleaned filter is always accepted by the table query. |
| ToolHost.LowerChoices | mcp_server/app.py:61-64 | Only string `status` and `tier` values are lower-cased, and all other entries are kept. |
| ToolHost.UpdateCustomer | mcp_server/app.py:57-67 | Succeeds exactly when the store update of the data with lower-cased status and tier succeeds, with its error otherwise. On success the tables are the store's and the document is the updated row. The row has the id and the lower-cased status and tier, and the tickets are untouched. |
| ToolHost.UpdateIgnoresCase | mcp_server/app.py:60-64 | Upper- and lower-case spellings of a string status or tier give the same update. |
| ToolHost.CleanPriority | mcp_server/app.py:73-74 | A truthy priority is lower-cased and stripped. |
| ToolHost.CreateTicket | mcp_server/app.py:69-77 | Succeeds exactly for a cleaned valid priority and an existing customer, with the priority error or `Customer does not exist.` otherwise. The new ticket is `open`, has the next id, the customer, the issue and the cleaned priority. It is appended after the existing tickets, the customers are untouched, and the document is that of the new row. |
| ToolHost.GetCustomerHistory | mcp_server/app.py:79-83 | Succeeds exactly for an existing customer. Gives that customer's full row and every one of that customer's tickets. Every listed document is that of one of that customer's tickets in the table. |
| ToolHost.HistoryDocument | mcp_server/app.py:79-83 | The history document has exactly the customer and tickets keys. It holds the customer's row and the listing of the given tickets, with the customer's id on every ticket. |
| ToolHost.ListTickets | mcp_server/app.py:85-93 | An empty id list gives `[]`. A truthy status, and then a truthy priority, is rejected exactly when its lower-cased text is no vocabulary word. The documents listed are exactly those of tickets of the requested customers matching the lower-cased filters. |
| ToolHost.LoweredFilter | mcp_server/app.py:89-90 | A lower-cased filter is rejected exactly when its lower-cased text names no value. |
| ToolHost.MatchedTicketRows | mcp_server/app.py:92-93 | The documents of the matching tickets are exactly those of matching tickets. |
| ToolHost.CleansToWord | mcp_server/app.py:37-46 | Any casing of a vocabulary word, padded with whitespace, cleans to that word. |
| ToolHost.ListingIgnoresCaseAndSpace | mcp_server/app.py:37-42 | A padded, re-cased status word lists the same rows as the word itself. |
| ToolHost.UnknownStatusIsDropped | mcp_server/app.py:40-41 | An unknown status word is dropped rather than rejected. |
| ToolHost.UpdateDoesNotStrip | mcp_server/app.py:61-62 | An update rejects a status with leading whitespace, which the listing would accept. |
| ToolHost.TicketListingDoesNotStrip | mcp_server/app.py:89 | A ticket listing rejects a status with leading white space, which the customer listing would accept. |
| ToolHost.TicketListingIgnoresCase | mcp_server/app.py:89-90 | Ticket filters give the same answer in any casing. |
| ToolHost.PriorityIsCleaned | mcp_server/app.py:73-76 | Any casing and padding of a priority files a ticket of that priority. |
| Text.NatToStringRoundTrip | agents/support_agent.py:91-92 | The count written into the action reads back as the count. |

## Left out

- HTTP and FastAPI are left out: request parsing, the agent-card and health routes, and the router's own echo `/a2a` route. A peer's HTTP exchange is the `PeerOutcome` parameter.
- The tool host's stdio session and the MCP protocol are not modelled. The tool host's reply is the `ToolOutcome` parameter, and it is not connected to `ToolHost`.
  - In the source, a tool that raises comes back as an error text. Here it is the `Err` of the tool function.
- Concurrency is not modelled. `asyncio.gather` becomes a map over the tasks in task order.
- Dispatch.RunAll: the specialist reports the exception of the first raising intent in intent order. The source reports the first in time.
- The language model, its prompts, credentials, sleeps and timeouts are left out. The model is the `network` and `Phrasing` parameters.
- JSON encoding and decoding (`json.dumps`, `json.loads`) are left out. Decoding is the `parse` parameter.
- Floats are not in `Json.Value`.
- `uuid4` and the clock are left out. They are the `Stamp` and `now` parameters.
- SQLite, the connection handling, `reset_db`, sample data and the table definitions are left out, except the four vocabularies.
  - Rows are listed in insertion order. The source has no `ORDER BY`.
  - The `updated_at` trigger is folded into the `now` parameter.
- Text.Lower: only ASCII letters are lower-cased. Python's full Unicode case mapping is not modelled.
- Json.Display renders lists and dictionaries as `[...]` and `{...}`, not with Python's `repr`. It is used inside `Unknown intent` texts and for the ticket id in the escalation sentence `Escalation Ticket #<id> created.`.
- Router.IsEmailChar: Python's `\w` also matches non-ASCII letters and digits. The model's class is ASCII letters, digits, `_`, `.` and `-` only.
- Router.EmailAt: the match's extent stops at the first non-ASCII letter or digit, where Python's `\w` would go on.
- Router.RunEnd: a run stops at the first non-ASCII letter or digit, where Python's `\w` would go on.
- Router.EmailMatchAt: a match needs ASCII characters on both sides of the `@`. Python would also match non-ASCII letters and digits there.
- Router.FindEmailStart: the leftmost match is leftmost among matches of the ASCII class. With non-ASCII letters or digits in the text, Python may match earlier.
- Router.SearchEmail: for text with non-ASCII letters or digits near an `@`, the found address can be shorter, later or missing compared with Python's.
- Router.EmailUpdates: `\w` is ASCII-only here, so the fallback address it takes from the text is exact only for ASCII addresses.
- Store.TextColumn: the SQLite binding error's text omits the parameter index.
- Store.TextColumn: the text stored for a float is not modelled.
- Store.FetchCustomer: the id is not range-checked. The source raises `OverflowError` for an id outside 64 bits; here such an id is not found.
- Store.FetchCustomers: the `limit` is not range-checked. The source raises `OverflowError` outside 64 bits; here any limit applies.
- Store.ModifyCustomer: the id is not range-checked. An id outside 64 bits gives `Customer not found.` here, where the source raises `OverflowError`.
- Store.AddTicket: the id is not range-checked. An id outside 64 bits gives `Customer does not exist.` here, where the source raises `OverflowError`.
- Store.FetchCustomerHistory: the id is not range-checked. An id outside 64 bits gives `Customer not found.` here, where the source raises `OverflowError`.
- Store.FetchTickets: the ids are not range-checked. The source raises `OverflowError` if any listed id is outside 64 bits.
- Tool-argument validation by the tool framework is left out. Arguments reach the tools already typed.
- ToolHost.ListCustomers: the tool's default `limit=10` is not a default argument here. Callers pass `Some(DefaultLimit)`, and `ToolHost.DefaultListingIsBounded` states what it bounds.
- Router.IterateIntents: a dictionary `intents` value is treated as not iterable. The source would iterate its keys.
- Some malformed inputs are not modelled:
  - a non-string query text;
  - a request body that is not a dictionary;
  - a tool content block that is not text;
  - a completion reply whose `choices` entries lack `message.content`.
- Logging and `print` are left out.

## Notes on the code

The code's second extraction tier is the greedy regular expression `\{.*\}`.
It takes the first `{` through the last `}`, not a balanced object. That is
what is modelled, and `Extract.GreedyAcrossObjects` shows the difference.
The keyword fallback always yields exactly one intent, never an empty list
(`Router.FallbackAlwaysAnswers`). With current `requests`, a 200 reply whose
body is not JSON raises a `RequestException`, so `query_llm` retries it like
a failed request.

A `get_customer_info` entry has no `ok` status of its own: the data agent
returns the customer row, and the unwrapping reads that row's `status`
column (`Router.Unwrap`). The entry's status is therefore `active` or
`disabled`, the customer's account status, not a report of success.
