# Google Chat GPT bot — a Dafny model of its conversation logic

The repository builds a Google Chat app as a sequence of Cloud Functions,
one per tutorial module. Each module adds a feature:

- an echo bot (`mod_1_chat`);
- request verification and a stateless call to ChatGPT (`mod_3_verify`);
- per-thread conversation memory in Cloud Datastore (`mod_4_datastore`, with
  the thread store of `mod_6_images`);
- slash commands and their own validator (`mod_5_commands`);
- per-user API keys, guided commands (`/new`, `/snark`, `/poet`) and DALL-E
  images (`mod_7_apiKey`, with the store of `mod_8_dialogs`);
- an illustrated choose-your-own-adventure story run as Cloud Tasks background
  work (`mod_9_story`).

The model keeps the decisions each handler makes:

- how events are dispatched;
- which message list goes to the model;
- what is written to the thread and user stores;
- what reply goes back to Chat;
- how the story ends after a fixed number of turns;
- how background tasks are built, validated and dispatched.

Python's conventions are stated in Dafny's terms:

- An exception that escapes a handler is `Outcome.Raised(error)`.
- A `None`-or-empty id follows Python truthiness (`Datastore.Truthy`).
- `str.split` is `Strings.Split`, proved inverse to `Strings.Join`.

**The language model.** The OpenAI calls are the class `Oracles.Gpt`:

- The k-th chat or image call answers with the k-th entry of a script fixed in
  advance, and fails once the script runs out.
- Every request is logged, so contracts can say exactly what was sent.

**Handlers.** Each stateful handler is a `method` that updates the store object
(`Datastore.Datastore` or `ImageDatastore.ThreadStore`) in place. It is proved
equal to a specification function that returns an `Effects` value:

- the reply;
- the store maps afterwards;
- the requests sent.

The lemmas state the source's promises about those functions.

**Story message list.** `create_story_chapter` appends to the list its caller
passes in, so that list is a `Messages.MessageList` object changed in place.
The image-prompt request goes to a copy.

**Values taken as parameters:**

- The creation time of a datastore record is the store's `clock` field.
- `random.choice` is a function `draw: nat -> nat`.
- The signature checks are function-typed parameters: `verify_id_token`,
  `requests.get(...).json()` and `jwt.decode`.
- The validation verdict of `mod_3` and `mod_4`, whose `auth_util` files are
  not part of this model, is a boolean parameter.

**Docstrings the code contradicts (the model follows the code):**

- The validators' docstrings say they raise on a missing header. The code
  catches every exception and returns `False`.

The `mod_9` task worker is modelled twice. `Tasks.ProcessBackgroundTask` is the
code as written, where both story actions raise (see "## Findings").
`Tasks.CorrectedProcessBackgroundTask` is the evidently intended worker, whose
dispatch starts the story with its two arguments and hands a continuation the
thread's stored history.

## Model

| member | source | states |
|---|---|---|
| Strings.Split | mod_9_story/cloud_function/auth_util.py:36 | `split` yields at least one piece. A string without the separator is one piece, and a string with it gives at least two. No piece contains the separator. |
| Strings.JoinSplit | mod_9_story/cloud_function/auth_util.py:36 | Joining the pieces of a split with the separator gives back the original string. |
| Strings.SplitJoin | mod_9_story/cloud_function/task_util.py:76-78 | Splitting the join of separator-free pieces gives back exactly those pieces. |
| Messages.MessageList.Append | mod_9_story/cloud_function/story_util.py:68 | `append` adds the message at the end of the same list object. |
| Messages.MessageList.Copy | mod_9_story/cloud_function/story_util.py:71 | `messages[:]` is a new list object with the same items. |
| Oracles.Gpt.GetGptResponse | mod_7_apiKey/cloud_function/gpt_util.py:3-21 | The answer is the next scripted chat answer or its error. The message list sent is logged, and no image request is made. |
| Oracles.Gpt.CreateImageWithPrompt | mod_7_apiKey/cloud_function/gpt_util.py:24-41 | The answer is the next scripted image URL or its error. The prompt is logged, and no chat request is made. |
| Models.WrapHistory | mod_8_dialogs/cloud_function/datastore_util.py:19 | The stored history object has exactly one key, `"messages"`. |
| Models.GetMessages | mod_9_story/cloud_function/models.py:8-9 | `get_messages` succeeds exactly when the history has a `"messages"` entry, and returns that entry; otherwise it raises `KeyError`. |
| Models.NewThread | mod_9_story/cloud_function/models.py:3-6 | A freshly inserted thread is stamped with the current time and has no messages yet. |
| Models.GetMessagesAfterWrap | mod_9_story/cloud_function/models.py:8-9 | Reading a thread whose history was written as `{"messages": m}` returns exactly `m`. |
| CommandsModels.GetMessages | mod_5_commands/cloud_function/models.py:7-8 | The same `KeyError` rule holds for the thread without a type. On success the result is the stored list. |
| CommandsModels.GetMessagesAfterWrap | mod_5_commands/cloud_function/models.py:7-8 | Reading back a written history returns the written list. |
| Datastore.PutThread | mod_8_dialogs/cloud_function/datastore_util.py:8-21 | A falsy id changes nothing. Otherwise the id's record holds exactly the new messages and type. Its creation time is kept, or set to now for a new record. Every other record is unchanged. |
| Datastore.LookupThread | mod_8_dialogs/cloud_function/datastore_util.py:23-31 | A record is found exactly when the id is truthy and stored, and it is the stored record. |
| Datastore.PutApiKey | mod_8_dialogs/cloud_function/datastore_util.py:33-42 | The user's record is created or overwritten and holds exactly the new key. Other users are unchanged. |
| Datastore.LookupApiKey | mod_8_dialogs/cloud_function/datastore_util.py:44-52 | A key is returned exactly when the user has a record, and it is that record's key; otherwise `None`. |
| Datastore.GetThreadAfterStore | mod_8_dialogs/cloud_function/datastore_util.py:8-31 | `get_thread` after `store_messages` returns exactly the stored messages and type. |
| Datastore.LastWriteWins | mod_8_dialogs/cloud_function/datastore_util.py:17-21 | Two writes to one id equal the second write alone, with no merge. The creation time stays that of the first write. |
| Datastore.AtMostOneRecordPerKey | mod_8_dialogs/cloud_function/datastore_util.py:11-18 | `get_or_insert` keeps one record per id. A write adds one record for a new id and none for a known one. |
| Datastore.GetApiKeyAfterStore | mod_8_dialogs/cloud_function/datastore_util.py:33-52 | `get_api_key` returns the last key stored for that user. Other users read as before. |
| Datastore.Datastore.StoreMessages | mod_8_dialogs/cloud_function/datastore_util.py:8-21 | The thread map afterwards is `PutThread` of the map before. |
| Datastore.Datastore.GetThread | mod_8_dialogs/cloud_function/datastore_util.py:23-31 | The result is `LookupThread` of the current map. |
| Datastore.Datastore.StoreApiKey | mod_8_dialogs/cloud_function/datastore_util.py:33-42 | The user map afterwards is `PutApiKey` of the map before. |
| Datastore.Datastore.GetApiKey | mod_8_dialogs/cloud_function/datastore_util.py:44-52 | The result is `LookupApiKey` of the current map. |
| ImageDatastore.ThreadStore.StoreMessages | mod_6_images/cloud_function/datastore_util.py:8-21 | The image bot's store writes threads by the same rule, `PutThread`. |
| ImageDatastore.ThreadStore.GetThread | mod_6_images/cloud_function/datastore_util.py:23-31 | The image bot's store reads threads by the same rule, `LookupThread`. |
| Auth.BearerToken | mod_9_story/cloud_function/auth_util.py:32-36 | A missing header, an empty header or a header without a space yields no token. A header with a space yields one. The token never contains a space. |
| Auth.IsChatRequestValid | mod_9_story/cloud_function/auth_util.py:30-48 | Valid exactly when a token is present, the signature check accepts it for the audience, and the `iss` claim is the Chat issuer. |
| Auth.IsRequestValid | mod_9_story/cloud_function/auth_util.py:17-48 | A missing or space-free header is rejected. Acceptance implies verified claims with the Chat issuer, for this app's audience. |
| Auth.IsBackgroundRequestValid | mod_9_story/cloud_function/auth_util.py:52-80 | Valid exactly when a token is present, the certificates are fetched, and the token decodes for the trigger URL with issuer `https://accounts.google.com`. Any failure gives `False`. |
| Auth.BearerTokenOf | mod_9_story/cloud_function/auth_util.py:36 | The header `scheme + " " + token` yields exactly `token`. |
| Auth.SchemeIsIgnored | mod_9_story/cloud_function/auth_util.py:36 | Both validators judge two headers that differ only in their scheme word alike. |
| Auth.ChatTokenAcceptedExactly | mod_9_story/cloud_function/auth_util.py:39-48 | A well-formed header is valid if and only if its token's claims verify with the Chat issuer. |
| Auth.TaskTokenAcceptedExactly | mod_9_story/cloud_function/auth_util.py:64-77 | A well-formed background header is valid if and only if its token decodes for the trigger URL with the Cloud Tasks issuer. |
| CommandsAuth.IsRequestValid | mod_5_commands/cloud_function/auth_util.py:15-46 | The same if-and-only-if decision, for the project number `362822420032`. A missing or space-free header is rejected. |
| Events.DmGreeting | mod_7_apiKey/cloud_function/main.py:36-39 | The DM greeting is `Hi `, then the display name, then the fixed closing text, and nothing else. |
| Events.Classify | mod_7_apiKey/cloud_function/main.py:25-48 | Only `MESSAGE` reaches message processing. Removal answers `{}`. ROOM and DM adds get their greetings. An unlisted event type, or an unlisted space kind on add, yields `None`. |
| Events.UserText | mod_7_apiKey/cloud_function/main.py:54-55 | A missing message or a missing `argumentText` yields `""`; otherwise the text itself. |
| Events.CommandId | mod_7_apiKey/cloud_function/main.py:61-64 | A command id is present exactly when the message carries a slash command. |
| Events.SecondSegment | mod_7_apiKey/cloud_function/main.py:57-58 | `name.split("/")[1]` succeeds exactly when the name contains `/`, and its result has no `/`. |
| Events.SecondSegmentOf | mod_7_apiKey/cloud_function/main.py:57-58 | `collection/id` yields `id`. |
| Events.ThreadId | mod_7_apiKey/cloud_function/main.py:66-70 | A thread id exists exactly for `DIRECT_MESSAGE` spaces, and it is `user_id-space_id`. |
| Events.ParseIds | mod_7_apiKey/cloud_function/main.py:56-70 | Succeeds exactly when both names contain `/`. The ids are the second segments, and the thread id follows the space type. |
| Events.ParseIdsOf | mod_7_apiKey/cloud_function/main.py:56-70 | For `users/u` and `spaces/s`, the thread id is `u-s` exactly in a direct message. |
| Tasks.MakePayload | mod_9_story/cloud_function/task_util.py:24-30 | The payload has exactly the five keys, with `background_task` set to true. |
| Tasks.Get | mod_9_story/cloud_function/task_util.py:72-75 | `dict.get` of a missing key is `None`. |
| Tasks.PayloadRoundTrip | mod_9_story/cloud_function/task_util.py:72-75 | The worker reads back exactly the action, thread id, text and message id that were enqueued. |
| Tasks.RunAsBackgroundTask | mod_9_story/cloud_function/task_util.py:19-57 | The task goes to queue `story-queue` in `us-central1`. It is a JSON POST to the trigger URL, its OIDC token's audience is that same URL, and its body is the payload. |
| Tasks.SplitThreadId | mod_9_story/cloud_function/task_util.py:76-78 | A non-string id raises `AttributeError`, and a string without `-` raises `IndexError`. Otherwise the user id is the text before the first `-`, and the space is `spaces/` plus the second piece. |
| Tasks.ThreadIdRoundTrip | mod_9_story/cloud_function/task_util.py:76-78 | For dash-free ids, splitting the DM thread id recovers the user id and the space name. |
| Tasks.RoundTripOnlyIfDashFree | mod_9_story/cloud_function/task_util.py:76-78 | The converse of `ThreadIdRoundTrip`: whenever the user id or the space id contains `-`, splitting the thread id does not recover the pair. |
| Tasks.DashInUserIdBreaksRoundTrip | mod_9_story/cloud_function/task_util.py:76-78 | One instance: user `a-b` in space `c` reads back as user `a` in `spaces/b`. |
| Tasks.StoryHistoryAsWritten | mod_9_story/cloud_function/story_util.py:105-112 | What `process_story_message` makes of the `message_id_to_update` it is handed as its list: it always raises. `None` and booleans fail `len` with `TypeError`, and a string fails `append` with `AttributeError`. |
| Tasks.StoryHistory | mod_8_dialogs/cloud_function/datastore_util.py:23-31 | The list a continuation should get: the stored thread's messages, or an error when the thread has no record. |
| Tasks.Dispatch | mod_9_story/cloud_function/task_util.py:89-93 | Corrected dispatch. `handle_story_command` gets the text and the thread id in its declared order. A continuation of a string thread id succeeds exactly when that thread has a stored history, and then receives that history. Any other tag does nothing. |
| Tasks.DispatchAsWritten | mod_9_story/cloud_function/task_util.py:89-93 | As written, the dispatch raises exactly for the two story actions. Every other tag does nothing. |
| Tasks.HandleStoryCommandNeverRuns | mod_9_story/cloud_function/task_util.py:92-93 | Every `handle_story_command` task raises as written. The corrected dispatch runs the command with its arguments. |
| Tasks.ContinuationReadsStartedStory | mod_9_story/cloud_function/task_util.py:89-90 | As written, every `process_story_message` task raises. Corrected: after `handle_story_command` starts a story, its continuation gets exactly the two stored messages. |
| Tasks.Response | mod_9_story/cloud_function/task_util.py:66-95 | A rejected caller gets `"Unauthorized request"`. A task that completes gets `{}`. |
| Tasks.ResolveApiKey | mod_9_story/cloud_function/task_util.py:80-86 | The looked-up key is used, even `None`. The fallback key is used only when the lookup raises. |
| Tasks.ProcessBackgroundTask | mod_9_story/cloud_function/task_util.py:60-95 | As written. Rejected exactly when validation fails. A validated task completes exactly when its thread id splits and its action is not a story action. It then recovers the user, space and key, and does nothing. |
| Tasks.CorrectedProcessBackgroundTask | mod_9_story/cloud_function/task_util.py:60-95 | With the corrected dispatch: rejected exactly when validation fails. A validated task completes exactly when its thread id splits and its dispatch succeeds. It then recovers the user, space, key and dispatched action. |
| Tasks.EnqueuedStoryTaskFailsAsWritten | mod_9_story/cloud_function/task_util.py:19-95 | A DM-thread task delivered with a token valid for its own OIDC audience is accepted. As written it raises exactly when its action is a story action; any other task recovers its user and space and does nothing. |
| Tasks.EnqueuedTaskRunsAsEnqueued | mod_9_story/cloud_function/task_util.py:19-95 | The same task, under the corrected worker, recovers the user and space it was built from. It runs the enqueued action, or fails exactly as that dispatch fails. |
| ApiKeyBot.CommandFor | mod_7_apiKey/cloud_function/main.py:76-112 | Command 5 stores the key and 4 makes an image. Commands 1-3 carry a non-empty guidance. Anything else is a plain chat turn. |
| ApiKeyBot.ChatHistory | mod_7_apiKey/cloud_function/main.py:121-134 | With guidance the list is `[system, user]`. With no stored thread it is `[user]`. It always ends with the user's text. |
| ApiKeyBot.ProcessChatMessageSpec | mod_7_apiKey/cloud_function/main.py:115-153 | A chat turn never touches the user records and never requests an image. |
| ApiKeyBot.CardId | mod_7_apiKey/cloud_function/main.py:172 | The card id is 25 characters, all ASCII letters or digits. |
| ApiKeyBot.HandleImageCommandSpec | mod_7_apiKey/cloud_function/main.py:155-202 | An image command requests exactly one image, for the user's prompt, and writes no record. |
| ApiKeyBot.HandleChat | mod_7_apiKey/cloud_function/main.py:16-48 | The handler's reply, store afterwards and model requests are those of `HandleChatSpec`. |
| ApiKeyBot.ProcessMessageEvent | mod_7_apiKey/cloud_function/main.py:51-112 | The event's reply, store afterwards and model requests are those of `ProcessMessageEventSpec`. |
| ApiKeyBot.ProcessChatMessage | mod_7_apiKey/cloud_function/main.py:115-153 | The chat turn's reply, thread map and requests are those of `ProcessChatMessageSpec`. |
| ApiKeyBot.HandleImageCommand | mod_7_apiKey/cloud_function/main.py:155-202 | The image command's reply and requests are those of `HandleImageCommandSpec`. |
| ApiKeyBot.UnauthorizedRequestHasNoEffect | mod_7_apiKey/cloud_function/main.py:19-21 | A rejected request gets `"Unauthorized request"` whatever its body, with no write and no model call. |
| ApiKeyBot.MembershipEventsOnlyAnswer | mod_7_apiKey/cloud_function/main.py:27-43 | Non-message events are answered by the dispatch alone, with no effect. |
| ApiKeyBot.ApiKeyCommandStoresKey | mod_7_apiKey/cloud_function/main.py:76-79 | `/api_key` stores the text as the user's key, confirms, and reads it back. It touches no thread and makes no model call. |
| ApiKeyBot.UnprovisionedUserIsPrompted | mod_7_apiKey/cloud_function/main.py:81-85 | Without a truthy stored key, any other message gets the provisioning prompt and has no effect. |
| ApiKeyBot.EmptyKeyLeavesUserBlocked | mod_7_apiKey/cloud_function/main.py:76-85 | Storing an empty key leaves the user blocked on their next message. |
| ApiKeyBot.GuidedCommandsIgnoreHistory | mod_7_apiKey/cloud_function/main.py:89-125 | `/new`, `/snark` and `/poet` send exactly `[their guidance, user text]`, whatever is stored. |
| ApiKeyBot.PlainMessageContinuesHistory | mod_7_apiKey/cloud_function/main.py:126-134 | An unguided message sends the stored history followed by the user's text. |
| ApiKeyBot.ChatTurnOutcome | mod_7_apiKey/cloud_function/main.py:136-149 | On success the reply is the answer, and a thread then holds the sent list plus the answer. A generation error replies with its text and stores nothing. |
| ApiKeyBot.TwoTurnsAccumulate | mod_7_apiKey/cloud_function/main.py:121-145 | Two plain turns on a new thread leave both exchanges stored in order. |
| ApiKeyBot.NoThreadOutsideDirectMessages | mod_7_apiKey/cloud_function/main.py:68-70 | Outside a direct message no thread record is ever written. |
| ApiKeyBot.ImageCardFields | mod_7_apiKey/cloud_function/main.py:163-200 | The card has one section headed by the title and one image. Image and link are the same URL, the alt text carries the DALL-E credit, and the id is 25 alphanumerics. |
| ApiKeyBot.FirstDirectMessage | mod_7_apiKey/cloud_function/main.py:51-153 | A first "Hello" in a DM from a provisioned user is answered, and the thread then holds the message and the answer. |
| Story.ChapterWidgets | mod_9_story/cloud_function/story_util.py:82-100 | Image then text. "The End" is added exactly when the history holds 10 messages. |
| Story.ChoiceText | mod_9_story/cloud_function/story_util.py:108-110 | The choice is prefixed with the end instruction exactly when the history holds 8 messages. |
| Story.CreateStoryChapterSpec | mod_9_story/cloud_function/story_util.py:53-102 | The chapter request is the history. After a chapter the list is the history plus the assistant's chapter. A failed first call leaves the list as it was. |
| Story.HandleStoryCommand | mod_9_story/cloud_function/story_util.py:5-32 | The reply, thread map and requests are those of `HandleStoryCommandSpec`. |
| Story.CreateStoryTitle | mod_9_story/cloud_function/story_util.py:34-50 | One title request is sent. The result is the bold, wrapped title widget, or the error. |
| Story.CreateStoryChapter | mod_9_story/cloud_function/story_util.py:53-102 | Returns the caller's own list object, changed as `CreateStoryChapterSpec` says, together with its widgets and requests. |
| Story.ProcessStoryMessage | mod_9_story/cloud_function/story_util.py:105-126 | The reply, thread map, caller's list and requests are those of `ProcessStoryMessageSpec`. |
| Story.ChapterAppendsOnlyTheChapter | mod_9_story/cloud_function/story_util.py:60-76 | A chapter adds exactly one assistant message to the caller's list. The image-prompt request goes to a copy one message longer. |
| Story.TheEndExactlyAtTen | mod_9_story/cloud_function/story_util.py:88-100 | The widgets start with image and text. "The End" appears if and only if the history plus the chapter holds 10 messages. |
| Story.EndInstructionExactlyAtEight | mod_9_story/cloud_function/story_util.py:108-112 | The choice sent carries the end instruction if and only if the history holds 8 messages. |
| Story.ContinuationGrowsByTwo | mod_9_story/cloud_function/story_util.py:105-115 | A continuation adds the choice and the chapter, two messages, and stores the result typed `"story"`. |
| Story.NewStoryStartsFresh | mod_9_story/cloud_function/story_util.py:5-32 | A new story ignores earlier threads and stores `[story prompt, chapter]` typed `"story"`. The card `story-card` shows the title first and no "The End". |
| Story.EndsOnFourthContinuation | mod_9_story/cloud_function/story_util.py:88-115 | The k-th continuation is asked to end, and shows "The End", if and only if k is 4. |
| DatastoreBot.SentMessages | mod_4_datastore/cloud_function/main.py:73-85 | A new thread sends `[guidance, user]`. A stored thread sends its history plus the user's text. The list always ends with the user's text. |
| DatastoreBot.ProcessMessageEventSpec | mod_4_datastore/cloud_function/main.py:52-104 | A message event makes at most one model request, and a successful reply is text. |
| DatastoreBot.HandleChatSpec | mod_4_datastore/cloud_function/main.py:16-49 | A rejected request gets `"Unauthorized request"` with no effect. Non-message events get the shared dispatch's answer with no effect. |
| DatastoreBot.HandleChat | mod_4_datastore/cloud_function/main.py:16-49 | The handler's reply, thread map and requests are those of `HandleChatSpec`. |
| DatastoreBot.ProcessMessageEvent | mod_4_datastore/cloud_function/main.py:52-104 | The event's reply, thread map and requests are those of `ProcessMessageEventSpec`. |
| DatastoreBot.UnauthorizedRequestHasNoEffect | mod_4_datastore/cloud_function/main.py:21-22 | A rejected request gets the same answer whatever its body. |
| DatastoreBot.TurnOutcome | mod_4_datastore/cloud_function/main.py:85-104 | On success the reply is the answer, and a thread holds the sent list plus the answer. A generation error replies with its text and stores nothing. |
| DatastoreBot.NonDirectMessagesAreStateless | mod_4_datastore/cloud_function/main.py:64-96 | Outside a DM every message is sent as `[guidance, user]` and nothing is stored. |
| DatastoreBot.GuidanceOnlyForNewThread | mod_4_datastore/cloud_function/main.py:73-96 | The guidance is sent once per thread. The second turn sends the stored first exchange plus the new text, and the stored history accumulates. |
| VerifyBot.Request | mod_3_verify/cloud_function/main.py:62-69 | Every request is exactly `[system guidance, user text]`. |
| VerifyBot.ProcessMessageEvent | mod_3_verify/cloud_function/main.py:51-83 | The model is asked exactly `Request(event)`. The reply is text: the model's answer, or the error's text. |
| VerifyBot.HandleChat | mod_3_verify/cloud_function/main.py:16-48 | A rejected request gets `"Unauthorized request"`. Messages are processed; other events get the shared dispatch's answer. |
| VerifyBot.RequestIsStateless | mod_3_verify/cloud_function/main.py:54-69 | The request, and hence the reply, depends only on the text. A missing message sends an empty user turn. |
| VerifyBot.UnauthorizedIgnoresBody | mod_3_verify/cloud_function/main.py:21-22 | A rejected request's answer depends neither on its body nor on the model. |
| EchoBot.ProcessMessageEvent | mod_1_chat/cloud_function/main.py:39-45 | The reply is `You said: ` followed by the message text. |
| EchoBot.HandleChat | mod_1_chat/cloud_function/main.py:9-36 | Messages are echoed. Other events get the shared dispatch's answer. |
| EchoBot.EchoDeterminesText | mod_1_chat/cloud_function/main.py:39-45 | Two messages get the same reply if and only if their texts are equal. A missing message gets the bare prefix. |
| EchoBot.NeverRejects | mod_1_chat/cloud_function/main.py:9-14 | With no validation, no event is answered `"Unauthorized request"`. |
| Variants.MembershipDispatchIsShared | mod_1_chat/cloud_function/main.py:16-36 | All four handlers answer an accepted non-message event identically, with no effect. |
| Variants.DatastoreBotOutsideDmIsStateless | mod_4_datastore/cloud_function/main.py:64-96 | Outside a DM the datastore bot sends and replies what the verification bot does, and stores nothing. |

## Left out

- OpenAI calls (`gpt_util.py`): model name, temperature and the HTTP exchange are not modelled. Each call is an oracle answer from a fixed script.
- Signature checks: `verify_id_token`, the certificate fetch and `jwt.decode` are cryptography and network. They are function-typed parameters returning claims or an error.
- `mod_3` and `mod_4` `auth_util.py` are not part of this model. Their verdict is a boolean parameter.
- `mod_7` `auth_util.py` is not part of this model. The API-key bot is validated by `Auth.IsRequestValid`, the `mod_9` validator, which `mod_5` repeats with only a different audience.
- `mod_4` `datastore_util.py` and `models.py` are not part of this model. The `mod_6` thread store and the `mod_9` thread record stand in for them, since `mod_4` calls the same two functions.
- `mod_9` `datastore_util.py` and `main.py` are not part of this model:
  - The story's store is the `mod_8` store, which has the same API.
  - The fallback `MY_API_KEY` is the `Tasks` constant.
- `dialog_util.py` (the API-key dialog cards) is not part of this model.
- Cloud Tasks client, JSON encoding, logging and the global `openai.api_key` assignment are left out:
  - The task request is a datatype whose body is the payload map.
  - `json.dumps` and `encode()` are not modelled.
  - Logging has no effect on behaviour.
  - The installed key is returned as `Tasks.ResolveApiKey`'s result.
- Event envelope: the `Events.Event` datatype always carries the fields the handlers index, so these error paths are not modelled:
  - `request.get_json()` returning `None` (for example `mod_7_apiKey/cloud_function/main.py:23`), which makes the next subscript raise `TypeError`;
  - a missing `type` (`:25`), `space.type` (`:31`, `:36`), `user.displayName` (`:37`), `user.name` (`:56`), `space.name` (`:58`), `space.spaceType` (`:59`) or `slashCommand.commandId` (`:64`), each of which raises `KeyError`.
- Slash-command id: `int(commandId)` is taken as already converted. The `ValueError` on a non-numeric id is not modelled.
- Record ids: Datastore's own rejection of ids the service does not accept is not modelled.
- Timestamps: the datastore's `DateTimeProperty` is an integer clock.
- Concurrency: concurrent requests, task redelivery and Datastore transactions are not modelled. Each handler runs alone.
- Tasks.StoryHistoryAsWritten: task payload values are modelled only as null, boolean or string (`Tasks.Json`). A JSON array passed as `message_id_to_update` would pass `len` and `append` at `story_util.py:109-112`, so "always raises" holds over the modelled values only.
- Tasks.Dispatch: the corrected dispatch selects the story operation and its arguments. Running that operation is modelled separately by `Story.HandleStoryCommandSpec` and `Story.ProcessStoryMessage`.
- Story.HandleStoryCommandSpec, Story.ProcessStoryMessageSpec, ApiKeyBot.HandleChatSpec, ApiKeyBot.ProcessMessageEventSpec: these have no `ensures` of their own. Their properties are stated by the lemmas beside them and by the methods proved against them.

## Findings

| source | as written | input that shows it | evidently intended | confidence | as-written member | corrected member |
|---|---|---|---|---|---|---|
| mod_9_story/cloud_function/task_util.py:92-93 | `handle_story_command(thread_id, user_text, message_id_to_update)` passes three arguments to a function declared with two (`story_util.py:5`). | Any validated task with action `"handle_story_command"` raises `TypeError` before the story starts. | Call `handle_story_command(user_text, thread_id)`, so that the task starts the story. | not executed | Tasks.DispatchAsWritten | Tasks.Dispatch |
| mod_9_story/cloud_function/task_util.py:89-90 | `process_story_message(thread_id, user_text, message_id_to_update)` hands the message id where the function expects the message list (`story_util.py:105`). That function takes its `len` and calls `append` on it (`story_util.py:109-112`). | Any validated task with action `"process_story_message"`: a `None` id raises `TypeError`, and a string id raises `AttributeError` on `append`. | Pass the thread's stored history, `get_thread(thread_id).get_messages()`, so that the story continues. | not executed | Tasks.StoryHistoryAsWritten | Tasks.StoryHistory |
