# chat-cv core model

chat-cv is a Streamlit chatbot that answers questions about one person's CV (Sergio). The bot is called Renardo. This project models the deterministic logic under the Streamlit front end and proves properties of it:

- how the bot greets by hour of day, builds its system prompt and prices a call (`backend/bot.py`);
- the session-state machine of the front end (`app.py`): keys set once and lazily, history seeded with the system prompt, turns that append a user and an assistant message, accumulated counters, and one exchange record per turn;
- the memory-based variant (`LLMMemory.py`): seeding, turn handling with its error fallbacks, usage bookkeeping, and the user-profile helpers;
- session ids and loading the context file (`backend/utils.py`).

Modules:

| file | module | models |
|---|---|---|
| `wrappers.dfy` | `Wrappers` | `Option` and `Result` |
| `chat.dfy` | `Chat` | chat messages, the history display filter, and the character-by-character reveal loop |
| `utils.dfy` | `Utils` | `create_id_session` and `get_context` |
| `bot.dfy` | `Bot` | greetings, the welcome text, `str.format` on the prompt template, the system prompt, pricing, and the default model |
| `app.dfy` | `App` | `st.session_state` as a map from session keys to values; the `Session` class wraps that map and the `ExchangeLog` class holds the PreguntasRespuestas records |
| `memory.dfy` | `Memory` | the `MemorySession` class (the session keys of LLMMemory.py as fields), its turn logic, and the profile (DetalleUsuario) helpers |

Modelling choices:

- The current hour is an input in 0..23.
- The random draws are inputs inside their ranges: four letter indices below 26 for the session id, and the `randint` draw for `probabilidad_preguntar`.
- Whether the context file exists, and its text when it does, is an input (`Utils.ContextFile`).
- The model's reply text and token count are inputs. So is the kind of error raised by the memory variant's model call (`Memory.ModelOutcome`).
- Prices and costs are `real`, so there is no float rounding.
- `st.session_state` in `app.py` holds integers, reals, strings and a message list. `App.Value` is the sum of those types.
- `+=` on a session key follows Python: int plus int stays an int, and anything involving a float is a float (`App.Add`).
- Python's `str.format` is modelled on templates already split into literal text and named fields (`Bot.Template`). Formatting fails with the missing field's name, as Python's `KeyError` does.
- `st.stop()`, `st.rerun()` and an uncaught exception are outcomes of the script run, not control transfers: `App.RunOutcome`, `Memory.InitOutcome`, `Memory.TurnResult`.
- In `app.py`, if the context file is missing on the first run, `messages` has already been set to `[]` when `build_system_prompt` raises. On every later run the key exists, so the history is never seeded again, and turns go on with no system prompt (`App.FailedSeedLosesSystemPrompt`). The model keeps this behaviour of the code.

## Model

| member | source | states |
|---|---|---|
| `Utils.Uppercase` | backend/utils.py:35 | a letter index below 26 maps to a character in 'A'..'Z' |
| `Utils.CreateIdSession` | backend/utils.py:21-35 | the id has exactly k characters (none for negative k), and character i is the uppercase letter of draw i |
| `Utils.IdDeterminesDraws` | backend/utils.py:35 | two draw sequences giving the same id are equal, so the join loses nothing |
| `Utils.GetContext` | backend/utils.py:37-50 | Success exactly when the file exists, with the file's text; otherwise FileNotFoundError naming docs/descriptif_cv_for_llm.txt |
| `Bot.FirstMatch` | backend/bot.py:64-66 | None exactly when no range of the table holds the hour; otherwise the greeting of a range that holds it |
| `Bot.SaludoPartition` | backend/bot.py:56-62 | every hour in 0..23 lies in some range of SALUDO, and in only one |
| `Bot.SaludoOnlyDayHours` | backend/bot.py:56-66 | an hour outside 0..23 matches no range, so the loop falls through |
| `Bot.CustomGreeting` | backend/bot.py:40-66 | for an hour in 0..23 the greeting is always one of the four greeting strings |
| `Bot.GreetingByHour` | backend/bot.py:57-61 | 0–6 and 20–23 give "¡Buenas noches! ", 7–13 "¡Buenos días! ", 14–16 "¡Muy buenas! ", 17–19 "¡Buenas tardes! " |
| `Bot.WelcomeMsg` | backend/bot.py:68-72 | the welcome text starts with the hour's greeting, and BOT_NAME follows right after " Mi nombre es " |
| `Bot.FieldNames` | backend/bot.py:37-38 | a name is listed exactly when the template has a placeholder with that name |
| `Bot.FormatPrompt` | backend/bot.py:37-38 | `prompt.format(**kwargs)`: literal text copied, each field replaced by its argument, and KeyError for the leftmost field without one (its properties are the Format lemmas below) |
| `Bot.FormatOutcome` | backend/bot.py:37-38 | formatting succeeds exactly when every placeholder has an argument; a failure names a placeholder without one; a template with no placeholders formats to its literal text |
| `Bot.FormatAppend` | backend/bot.py:37-38 | formatting two templates one after the other equals formatting each and concatenating |
| `Bot.FormatIgnoresUnused` | backend/bot.py:37-38 | arguments that name no placeholder do not change the result |
| `Bot.FormatTwoFields` | backend/bot.py:10-38 | a text–field–text–field–text template with both fields supplied formats to the texts with the two values spliced in |
| `Bot.BuildSystemPrompt` | backend/bot.py:89-97 | when the context file exists, the prompt is PROMPT with {nombre_bot} replaced by BOT_NAME and {context} by the file text, the rest unchanged; otherwise the FileNotFoundError of get_context |
| `Bot.PricesPositive` | backend/bot.py:29-34 | every price in the table is positive |
| `Bot.CalculateCost` | backend/bot.py:74-87 | tokens times the table price for a known model, 0 for an unknown one, and never negative |
| `Bot.CostMonotone` | backend/bot.py:87 | more tokens never cost less |
| `Bot.CostAdditive` | backend/bot.py:87 | the cost of t1 + t2 tokens is the sum of the two costs |
| `Bot.GetModel` | backend/bot.py:99-107 | the default model is a key of the pricing table |
| `Bot.DefaultModelIsPriced` | backend/bot.py:8-34 | a positive number of tokens on the default model costs more than 0 |
| `Chat.VisibleMembers` | app.py:112-115 | the displayed history is no longer than the history and holds exactly its non-system messages |
| `Chat.Visible` | app.py:112-115 | the messages a chat page draws: the history without its system messages, in order (also LLMMemory.py:203-210 on messages[1:]); its properties are the two lemmas beside it |
| `Chat.VisibleAppend` | app.py:112-115 | displaying a concatenation is concatenating the two displays, so the order is kept |
| `Chat.Reveal` | app.py:132-137 | the accumulated text ends equal to the reply, and the i-th redraw shows the reply's first i+1 characters (app.py draws each with a trailing cursor, see Left out) |
| `App.Add` | app.py:45 | `+=` on numbers adds their values exactly; the result is an int exactly when both operands are ints |
| `App.AfterTurn` | app.py:118-147 | a turn appends the prompt as user and the reply as assistant, adds 1 to query_num, the tokens to total_tokens and calculate_cost to total_cost; no other key changes |
| `App.RecordOf` | app.py:149-156 | the record holds the session id, the post-increment query_num, the prompt, the reply, the cost and the tokens |
| `App.AfterTurns` | app.py:118-147 | a sequence of turns keeps the session state ready for another turn |
| `App.TurnsAccumulate` | app.py:139-147 | after n turns query_num rose by n, total_tokens by their tokens, and total_cost did not fall; the history grew by 2n, keeps the old history as a prefix, and the id and model are unchanged |
| `App.RecordNumbering` | app.py:144-152 | the record of turn k (from 0) carries query_num = initial + k + 1, and the session's id |
| `App.FreshSessionAfterTurns` | app.py:93-147 | from a freshly seeded session, after n turns query_num is n, the history has 2 + 2n messages, and index 0 is still the system prompt |
| `App.SetDefaultStep` | app.py:79-80 | setting a key only when absent adds that key, keeps every present value, and stores the value only for an absent key |
| `App.DefaultKeysKeep` | app.py:79-91 | the five counter/id/model initialisations add exactly those keys and keep every value already present |
| `App.DefaultKeysValues` | app.py:79-91 | an absent key gets its default: the new id, query_num 0, get_model(), total_cost 0, and total_tokens 0 |
| `App.InitStateProperties` | app.py:79-93 | the whole initialisation block adds just the six session keys, keeps all existing values, and applies the defaults |
| `App.InitStateHistory` | app.py:93-108 | an absent history becomes [system prompt, welcome] when the prompt is built; it becomes [] when building it fails |
| `App.SeededHistory` | app.py:93-108 | with a present context file the first history is [system(the formatted PROMPT), assistant(the hour's welcome)]; without one it is [] |
| `App.InitStateReady` | app.py:79-108 | once initialised, a well-typed session has every key with the type a turn needs |
| `App.FailedSeedLosesSystemPrompt` | app.py:93-120 | after a first run without the context file, the next turn's history starts with the user prompt, not a system message |
| `App.SetDefault` | app.py:79-80 | one `if key not in st.session_state: st.session_state[key] = v` step |
| `App.DefaultKeys` | app.py:79-91 | the five id/counter/model assignments of the initialisation block, in the code's order |
| `App.Seed` | app.py:93-108 | the history seeding: nothing when `messages` exists; [system prompt, welcome] when the prompt is built; [] when build_system_prompt raised |
| `App.InitState` | app.py:79-108 | the whole initialisation block: the five defaults and then the seeding (its properties are the InitState lemmas above) |
| `App.ExchangeLog.Insert` | app.py:157 | the record is appended to the log |
| `App.Session.GetKey` | app.py:22-30 | the stored value when the key is present; KeyError with the key otherwise |
| `App.Session.IncValue` | app.py:32-46 | a missing key raises KeyError, a non-numeric value raises TypeError, and in both cases state is unchanged; otherwise the key is set to old + value, the new value is returned, and other keys are unchanged |
| `App.Session.Initialize` | app.py:79-109 | the state becomes the initialised state; the outcome is a rerun after seeding, a crash with the FileNotFoundError, or no seeding when the history exists |
| `App.Session.ShowHistory` | app.py:112-115 | the display loop shows exactly the non-system messages, in order |
| `App.Session.Turn` | app.py:118-157 | the state after the per-turn block is the turn's specified state; the record returned is the turn's record and it is appended to the log |
| `App.RunScript` | app.py:77-157 | a first run seeds the state and ends in a rerun when the context file exists, or a crash with FileNotFoundError when it does not; later runs do a turn when there is input and nothing otherwise; the state is always ready |
| `App.RunScriptWith` | app.py:77-157 | the same script run, with the system prompt and welcome text given as values |
| `Memory.SameGreetingTable` | LLMMemory.py:102-108 | the memory variant's SALUDO table is the backend's table |
| `Memory.CustomGreeting` | LLMMemory.py:86-112 | for hours 0..23 the table match succeeds and gives the backend's greeting |
| `Memory.SystemPromptMessage` | LLMMemory.py:144-160 | a system prompt exists exactly when the context file does (get_context stops the script otherwise) |
| `Memory.SystemPromptText` | LLMMemory.py:48-68 | the system prompt is TEMPLATE with BOT_NAME and the context text substituted |
| `Memory.WelcomeMsg` | LLMMemory.py:187-189 | the welcome starts with the hour's greeting, and BOT_NAME follows " Mi nombre es " |
| `Memory.SeedHistory` | LLMMemory.py:185-191 | the seed history has three messages: system first, then two assistant messages |
| `Memory.SeedHistoryShown` | LLMMemory.py:193-194 | the two messages after the system prompt are the ones streamed, in order |
| `Memory.Items` | LLMMemory.py:243 | the profile's items come in the field order nombre, apellidos, empresa, email |
| `Memory.BlankNamesMembers` | LLMMemory.py:241-246 | a name is reported exactly when its field's value is None, "" or 0 |
| `Memory.BlankNames` | LLMMemory.py:241-246 | the names of the items whose value is None, "" or 0, in item order, as the `ask_for` loop collects them |
| `Memory.MissingInFieldOrder` | LLMMemory.py:241-246 | the report lists the blank fields in field order, each once |
| `Memory.NonEmptyDetails` | LLMMemory.py:257 | the update holds exactly the fields whose new value is neither None nor "", with those values |
| `Memory.CopyUpdate` | LLMMemory.py:258 | pydantic `copy(update=...)`: a field named in the update takes its value, the others keep theirs |
| `Memory.MergeNonEmpty` | LLMMemory.py:257-258 | the profile `actualizar_detalles_no_nulos` binds: the current profile copied with the non-empty fields of the new one |
| `Memory.MergeFieldwise` | LLMMemory.py:257-258 | each field takes the new value when that is set, and keeps the old value otherwise |
| `Memory.MergeIdempotent` | LLMMemory.py:257-258 | applying the same update twice equals applying it once |
| `Memory.MergeKeepsSet` | LLMMemory.py:257-258 | a field that was set stays set |
| `Memory.ShouldAsk` | LLMMemory.py:304-317 | for a draw in [0, max(0, 7-n)] the answer is False exactly when the draw is 0, so always False for n >= 7 |
| `Memory.AskPossibleIffFewQuestions` | LLMMemory.py:312-317 | some draw gives True exactly when n < 7 |
| `Memory.AsWrittenTurn` | LLMMemory.py:320-366 | the turn as the code is written: question appended, then the reply, or ANSWER_ERROR followed by st.stop() on AuthenticationError and by UnboundLocalError on every other error |
| `Memory.CorrectedTurn` | LLMMemory.py:320-366 | the turn as intended: the same history, with a recoverable error ending as the ANSWER_ERROR fallback reply |
| `Memory.AsWrittenRecoverableRaises` | LLMMemory.py:342-366 | as written, any non-authentication error ends the turn in UnboundLocalError |
| `Memory.CorrectedTurnHistory` | LLMMemory.py:320-366 | a turn adds exactly two messages: the question as user, then the model's reply or ANSWER_ERROR; the old history stays a prefix |
| `Memory.CorrectedAgreesWhereDefined` | LLMMemory.py:333-341 | the corrected turn leaves the same history as the code, and the same exit on success and on AuthenticationError |
| `Memory.TurnKeepsSystemPrompt` | LLMMemory.py:322-366 | a turn never changes the system prompt at index 0 |
| `Memory.MemorySession.InitMemory` | LLMMemory.py:183-195 | seeds only when the history is unset: the system prompt, the welcome and the intro question, streaming the last two; stops with no history when the context is missing; other keys unchanged |
| `Memory.MemorySession.StoreSeed` | LLMMemory.py:184-195 | the seeding and streaming loop with the prompt and welcome given as values |
| `Memory.MemorySession.UpdateUsage` | LLMMemory.py:197-201 | total_tokens and cost are overwritten with this response's values, not accumulated; the rest is unchanged |
| `Memory.MemorySession.ShowHistory` | LLMMemory.py:203-210 | shows the non-system messages after index 0, in order |
| `Memory.MemorySession.MissingFields` | LLMMemory.py:232-246 | with no profile, KeyError on detalle_usuario; otherwise the names of the blank fields, in field order |
| `Memory.MemorySession.UpdateNonNull` | LLMMemory.py:248-258 | with no profile, KeyError; otherwise the profile becomes the non-empty merge; other keys unchanged |
| `Memory.MemorySession.GetResponseWithMemory` | LLMMemory.py:319-386 | the history follows the corrected turn and is shown after the question is appended; usage is set only on success; last_exception records the error kind |

## Left out

- Streamlit rendering: page setup, sidebar, download button, `st.chat_message`, placeholders, and `time.sleep` pacing. Only the final shown text (`Chat.Reveal`) and which messages are displayed are modelled.
- The OpenAI client call in `app.py` and the langchain call in `LLMMemory.py` are foreign calls. Their replies, token counts and error kinds are inputs. An exception from the `app.py` client call is not modelled.
- `get_openai_callback` metering: the callback's totals are the `tokens`/`cost` of `Memory.ModelOutcome.Completed`.
- MongoDB `insert_schema_in_db` is an append to `App.ExchangeLog`. `update_counter` (the download counter) and `db_client.py` are not part of this model, since they are network I/O.
- `datetime.now`, `pytz` and `format_datetime` are clock reads. The hour is an input, and the record timestamp is not modelled.
- `random.choices` and `random.randint` are randomness. Their draws are inputs within their ranges.
- Field types of the pydantic schemas: `Memory.Value` allows None, a string or an int in every profile field.
- `extraer_detalles_usuario`, `preguntar_por_detalle_usuario`, `pipeline_extraer_detalle_usuario` and the block disabled at LLMMemory.py:370-382 are LLM pipelines, and the block is disabled. `display_audio_unsafe` is a browser-side stub.
- `st.error` messages are display only. `st.cache_data` memoisation of `get_response_with_memory` is host caching and is not modelled.
- Bot.CalculateCost: an unknown model costs the real 0.0, where Python returns the int 0 from `tokens * 0`. The value is the same, but in the model `total_cost` becomes a real after such a turn, where Python would keep an int.
- App.Session.Turn: the float product `tokens * pricing.get(model, 0)` (backend/bot.py:87) and the float `+=` on `total_cost` (app.py:45) are exact real arithmetic, so float rounding is not modelled.
- Chat.Reveal: the frames are the prefixes of the reply; the cursor "▌" app.py appends to each redraw (app.py:106, 135) is presentation and is not modelled.
- Memory.MemorySession.GetResponseWithMemory: `round(cb.total_cost, 4)` is not modelled (exact reals). The error path follows the corrected turn (see Findings), not the UnboundLocalError of the code.
- App.RunScript: `get_welcome_msg()` is called twice in app.py:104-108, and the two calls could see different hours. One hour is modelled for both.
- App.RunScript: `build_system_prompt` and the welcome text are computed before the `messages` check in the model. This has no effect, since both are pure given the inputs.
- Bot.FormatOutcome: brace parsing, escapes (`{{`) and format specs of `str.format` are not modelled, because templates arrive already split into text and fields.
- The history message objects of `LLMMemory.py` (`SystemMessage`, `HumanMessage`, `AIMessage`) and the role dictionaries of `app.py` are both `Chat.Message`.

## Findings

| source | as written | input that shows it | evidently intended | confidence | as-written member | corrected member |
|---|---|---|---|---|---|---|
| LLMMemory.py:366 | after a RequestException, TypeError, ValueError or other non-authentication error, the except block appends ANSWER_ERROR. Control then falls through to appending `AIMessage_response`, which was never bound, so the turn raises UnboundLocalError and `actualizar_consumos` is never reached | a model call that raises `requests.exceptions.RequestException` (`Raised(Connection)`) | the turn ends after the ANSWER_ERROR append and returns ANSWER_ERROR as its reply; history grows by the question and ANSWER_ERROR, and the usage totals are unchanged | not executed | `Memory.AsWrittenRecoverableRaises` | `Memory.CorrectedTurnHistory` |

`Memory.AsWrittenTurn` models the code as written, and `Memory.CorrectedTurn` is the corrected turn. `Memory.MemorySession.GetResponseWithMemory` uses the corrected turn. `Memory.CorrectedAgreesWhereDefined` shows that the two leave the same history, and that they differ only in how a recoverable error ends.
