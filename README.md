# telegram-agents, modelled in Dafny

A model of the core of `telegram-agents`, a Telegram bot. The bot answers
commands with two LLM "agents" reached through OpenRouter. It loads extra
command handlers ("skills") from a directory at run time. Its main skill
is a tarot school that walks a user through generated lessons.

The model covers three source files:

- `agents/base.py` → `Agents.dfy`: the completion call `_call` with its
  one-step fallback to `deepseek/deepseek-v3`, and the Planner and Verifier
  agents that build the conversations they send. The HTTP request is an
  `Endpoint` parameter. It maps a model and a conversation to the
  completion text, or to `None` for anything the bare `except:` swallows.
  Every call returns an `Exchange`: its reply and the requests it sent, in
  order.
- `bot.py` → `Bot.dfy`:
  - the admin filter;
  - the history middleware;
  - skill loading into the dispatcher, as a `Dispatcher` class whose
    `LoadSkills` loop is proved against a specification function;
  - how `/plan`, `/new_skill`, `/reload` and `/review` turn the message
    text into requests and replies.
- `skills/taro.py` → `Taro.dfy`:
  - the lesson plan `TOPICS`;
  - the two inline keyboards, built through an `InlineKeyboardBuilder`
    class as the source does;
  - the "nav_<section>_<idx>" callback strings and how `navigation`
    parses them back;
  - `run_lesson`, and the FSM state a lesson leaves, as an `Fsm` class.

Two more files support them:

- `PyStr.dfy` gives the Python string operations the source relies on:
  - `str.isspace`, `strip`, `replace(pat, "")`;
  - `split(char)` and `join`;
  - `split(maxsplit=n)`;
  - `str(int)` and `int(str)`.
- `Wrappers.dfy` holds `Option`.

The main results:

- `_call` is exactly a walk over the chain `[model, fallback]`, or
  `[fallback]` when the model is already the fallback model.
- `cmd_plan` sends the planner the history followed by the task, and
  sends the verifier the plan alone.
- `load_skills` includes exactly the `setup()` routers of the candidates
  before the first module that raises.
- Every navigation callback parses back to the section and index it was
  built from.
- Pressing keyboard buttons from a valid lesson never leaves the
  section's range of lessons.

## How the code behaves

- `_call` tries the requested model and then at most one fallback,
  `deepseek/deepseek-v3`, with no retry and no delay between the two.
  `WalkChain` is a reference walk over any ordered list of models, and
  `CallWalksChain` shows that `_call` is that walk over the chain
  `[model, fallback]`, or `[fallback]` when the model is already the
  fallback model.
- The planner's conversation is the stored history, unchanged and
  unfiltered, followed by one user message holding the task. It carries no
  system instruction.
- In `load_skills` one `try` wraps the whole loop, so the first exception
  ends the loading. Routers included before it stay; later files are not
  loaded.
- `load_skills` clears `dp.sub_routers` and then includes each router in
  directory-listing order. Nothing is sorted, and no metadata is kept.

## Model

| member | source | states |
|---|---|---|
| Agents.Call | agents/base.py:8-17 | One or two requests with the same messages, the first to the requested model. A second request goes out exactly when the first failed and the model is not the fallback model, and it goes to the fallback model. Every request but the last failed. The reply is the last request's content, or "Service unavailable" |
| Agents.CallFirstSuccess | agents/base.py:11-13 | A first request that yields content is the only request, and its content is the reply |
| Agents.CallFallsBack | agents/base.py:14-16 | A failed first request to another model is followed by exactly one request to the fallback model, whose outcome is the reply |
| Agents.CallFallbackFails | agents/base.py:15-17 | A failed request to the fallback model itself ends the call with "Service unavailable" after one request |
| Agents.FallbackChain | agents/base.py:15-16 | The chain `_call` walks is `[model, fallback]`, or `[fallback]` when the model is the fallback model. It starts at the requested model, ends at the fallback model, and holds the fallback model only at its end |
| Agents.WalkChain | agents/base.py:8-17 | Reference N-model walk: request i goes to chain[i] with the same messages, and only after all earlier ones failed. A non-empty chain sends at least one request. The reply is the last request's content, or "Service unavailable" when that request failed too or nothing was sent. The walk stops early only at a model that answered. If every model fails, all of them were tried |
| Agents.CallWalksChain | agents/base.py:8-17 | `_call` equals the reference walk over `[model, fallback]`, or over `[fallback]` |
| Agents.PlannerMessages | agents/base.py:21 | The history unchanged and in order, then exactly one user message holding the task |
| Agents.PlannerProcess | agents/base.py:20-22 | Starts at the planner model. Every request carries the history followed by the task. There is a second request exactly when the planner model failed |
| Agents.VerifierProcess | agents/base.py:25-26 | Starts at the verifier model. Every request carries exactly one user message holding the text |
| PyStr.IsSpace | bot.py:63 | `str.isspace()` on one character: the Unicode whitespace code points. `strip`, `split()` and `int()` rest on it, and `PyStr.Strip`, `PyStr.SplitFrom` and `PyStr.ParseIntPadded` state their behaviour in its terms |
| PyStr.StartsWith | bot.py:29 | `str.startswith`: the text's first characters are the prefix. The checks at bot.py:29 and bot.py:40 and the handler filters at skills/taro.py:123 and 128 use it; `Bot.HistoryMiddleware`, `Bot.CandidateModule` and `Taro.NavPrefixes` state their results |
| PyStr.EndsWith | bot.py:87 | `str.endswith`: the text's last characters are the suffix. bot.py:40 and bot.py:87 use it; `Bot.WithPySuffix` ensures its result ends in ".py", and `Bot.CandidateModule` states which files pass the check |
| PyStr.Strip | bot.py:63 | `strip()` cuts only whitespace from both ends, and what is left neither starts nor ends with whitespace. It is empty exactly when the text is all whitespace |
| PyStr.StripUnchanged | bot.py:63 | Text whose ends are not whitespace is left unchanged by `strip()` |
| PyStr.StripPadded | skills/taro.py:132 | `strip()` removes whitespace padding of any length around text whose ends are not whitespace, and nothing more |
| PyStr.RemoveAll | bot.py:63 | `replace(pat, "")` never lengthens the text, and leaves text without `pat` unchanged |
| PyStr.RemoveAllLeading | bot.py:63 | A leading copy of `pat` disappears |
| PyStr.RemoveAllFirstOccurrence | bot.py:63 | At the first occurrence of `pat`, the text before it is kept, `pat` itself is dropped, and removal goes on after it |
| PyStr.Split | skills/taro.py:131 | `split(sep)` gives at least one part, and no part holds the separator |
| PyStr.SplitNoSeparator | skills/taro.py:131 | Text without the separator splits into itself alone |
| PyStr.SplitAppend | skills/taro.py:131 | Splitting a + sep + b is splitting a followed by splitting b |
| PyStr.JoinSplit | skills/taro.py:133 | Joining the parts of a split with the same separator gives back the text |
| PyStr.Join | skills/taro.py:133 | `sep.join(parts)`, also used at bot.py:108. `PyStr.JoinSplit` and `PyStr.SplitJoin` state that it inverts `split`, and `PyStr.JoinAppend` how it grows |
| PyStr.JoinAppend | bot.py:108 | Joining one more part adds a separator and the part, or gives the part alone when the list was empty |
| PyStr.SplitJoin | bot.py:108 | Splitting a join of separator-free parts gives back the parts |
| PyStr.SplitFrom | bot.py:78 | `split(maxsplit=n)` gives at most n + 1 non-empty parts, each starting with a non-space character. Only the last part, and only when the limit was reached, may hold whitespace |
| PyStr.SplitFromEmpty | bot.py:78 | The split is empty exactly when only whitespace is left |
| PyStr.SplitFromWord | bot.py:78 | After any run of whitespace, a word ending at whitespace or at the end of the text is the next part, and the split goes on after it with one split fewer |
| PyStr.SplitFromRest | bot.py:78 | With no splits left, everything after the leading whitespace is the one last part |
| PyStr.SplitWhitespace | bot.py:78 | `s.split(maxsplit=n)` is the split of the whole text. Its parts are as `PyStr.SplitFrom` states, and `PyStr.SplitWhitespaceThree` gives the three parts of a command line |
| PyStr.SplitWhitespaceThree | bot.py:78 | Two words and a rest, separated by any non-empty runs of whitespace and with any leading whitespace, split with a limit of 2 into exactly those three parts |
| PyStr.NatToDecimal | bot.py:25 | `str(n)` is a non-empty string of decimal digits without a leading zero |
| PyStr.IntToDecimal | bot.py:25 | `str(i)`: `PyStr.IntToDecimalShape`, `PyStr.ParseIntRoundTrip` and `PyStr.IntToDecimalInjective` state its properties |
| PyStr.IntToDecimalShape | bot.py:25 | `str(i)` is a '-' followed by the digits of -i for a negative i, and the digits of i otherwise. It is non-empty, does not start or end with whitespace, and holds no information separator |
| PyStr.DigitsValueOfDecimal | bot.py:25 | The digits of `str(n)` read back as n |
| PyStr.ParseInt | skills/taro.py:132 | A text holding an information separator (U+001C to U+001F) anywhere fails to parse |
| PyStr.ParseIntRoundTrip | skills/taro.py:132 | `int(str(i)) == i` for every integer |
| PyStr.ParseIntPadded | skills/taro.py:132 | `int()` reads `str(i)` back as i when it is surrounded by any `isspace()` whitespace that holds no information separator, non-ASCII whitespace such as U+0085 included |
| PyStr.IntToDecimalInjective | bot.py:25 | Distinct integers have distinct `str` forms |
| Bot.IsAdmin | bot.py:23-25 | `AdminFilter`: the user id, written as `str` writes it, equals `ADMIN_ID`. `Bot.AdminMeansCanonicalId` and `Bot.AdminUnique` state its properties |
| Bot.AdminMeansCanonicalId | bot.py:23-25 | A user passes the filter exactly when `ADMIN_ID` is set, parses as that user's id, and is written the way `str` writes it. An unset `ADMIN_ID` admits nobody |
| Bot.AdminUnique | bot.py:23-25 | At most one user id passes the filter |
| Bot.HistoryMiddleware | bot.py:27-31 | With database writes taken to succeed, the handler is always called, and last. The message is stored as a user message first exactly when its text is non-empty and does not start with '/' |
| Bot.PlanTask | bot.py:63 | The task is no longer than the text and neither starts nor ends with whitespace. It is empty exactly when removing "/plan" leaves only whitespace |
| Bot.PlanTaskOfCommand | bot.py:63 | For a text with a single "/plan", the task is the text around it, joined and stripped |
| Bot.PlanCommand | bot.py:61-73 | What `cmd_plan` does: the usage reply for an empty task, otherwise a planner call on the task and the history, then a verifier call on the plan. `Bot.PlanCommandRequests` states its requests, reply and record |
| Bot.PlanReplyText | bot.py:70-72 | The text `cmd_plan` sends: `Bot.PlanCommandRequests` states that it is the usage reply exactly when the task is empty |
| Bot.PlanSaved | bot.py:72-73 | The store after the reply: `Bot.PlanCommandRequests` states that nothing is stored for an empty task, and otherwise the plan is stored as an assistant message exactly when the reply was delivered |
| Bot.PlanCommandRequests | bot.py:61-73 | An empty task gives the usage reply, sends no request and stores nothing. Otherwise 2 to 4 requests go out: planner requests carrying history + task, then verifier requests carrying the plan alone. The plan is stored as an assistant message exactly when Telegram accepted the Markdown reply |
| Bot.WithPySuffix | bot.py:87-88 | The file name ends in ".py" and begins with the given name. It equals the name exactly when the name already ends in ".py"; otherwise it is exactly 3 characters longer, so it is the name followed by ".py" |
| Bot.WithPySuffixIdempotent | bot.py:87-88 | Adding the suffix twice is the same as adding it once |
| Bot.NewSkillCommand | bot.py:78-88 | The format reply comes exactly when the whitespace split has fewer than 3 parts. When a file is written, its name ends in ".py" and holds no whitespace, and the code is non-empty and starts with a non-space character |
| Bot.NewSkillWrites | bot.py:78-88 | "command name code", with any whitespace around and between the parts, writes `code` to `name` with ".py" added when missing |
| Bot.NewSkillReply | bot.py:80-95 | The reply is the format reminder exactly when nothing is written; otherwise it is the confirmation naming the file |
| Bot.HistoryLines | bot.py:108 | One "role: content" line per stored message, in order |
| Bot.ReviewCommand | bot.py:107-110 | One verifier call. Every request carries one user message: the review prefix followed by the history text |
| Bot.HistoryText | bot.py:108 | The history lines joined with newlines. `Bot.HistoryTextSplits` states that it splits back into exactly its lines |
| Bot.HistoryTextSplits | bot.py:108 | When no role or content holds a newline, the history text splits back into exactly its lines |
| Bot.HistoryTextAppend | bot.py:108 | For every history, one more stored message adds its "role: content" line, after a newline unless it is the first message |
| Bot.IsCandidate | bot.py:40 | A file name that ends in ".py" and does not start with "__". `Bot.CandidateModule` states which "<stem>.py" it accepts |
| Bot.LoadedRouters | bot.py:39-48 | Reference definition of what the loading loop includes. `Bot.LoadedIsSetupBeforeAbort`, `Bot.LoadedAppend`, `Bot.RaiseStopsLoading`, `Bot.NoSetupSkipped`, `Bot.LoadedPrefix` and `Bot.NoRaiseLoadsAll` state its properties, and `Bot.Dispatcher.LoadSkills` is proved against it |
| Bot.ModuleName | bot.py:41 | The module name is "skills." followed by the file name without ".py" |
| Bot.AbortIndex | bot.py:37-48 | The index of the first candidate whose loading raises: none before it raises. It is inside the listing exactly when loading aborts |
| Bot.LoadedAppend | bot.py:39-48 | Loading a + b aborts exactly when a or b aborts. It loads a's routers, then b's unless a aborted |
| Bot.LoadedIsSetupBeforeAbort | bot.py:39-48 | The routers loaded are exactly the `setup()` routers of the candidates before the first one that raises, in listing order |
| Bot.RaiseStopsLoading | bot.py:42-48 | A candidate that raises keeps what was loaded before it, and nothing after it is loaded |
| Bot.NoSetupSkipped | bot.py:44-45 | A module without `setup` contributes nothing, and loading goes on after it |
| Bot.LoadedPrefix | bot.py:39-45 | What a prefix of the listing loads begins what the whole listing loads |
| Bot.NoRaiseLoadsAll | bot.py:39-45 | When no candidate raises, every `setup()` router is loaded, in listing order |
| Bot.CandidateModule | bot.py:40-41 | "<stem>.py" is a candidate exactly when the stem does not start with "__", so "_helper.py" is loaded too. It names module "skills.<stem>" |
| Bot.Dispatcher.constructor | bot.py:19 | A new dispatcher has no sub-routers |
| Bot.Dispatcher.IncludeRouter | bot.py:45 | The router is appended to the sub-routers |
| Bot.Dispatcher.LoadSkills | bot.py:35-48 | The sub-routers become exactly the loaded routers of the listing, whatever they were before. They become empty when the listing itself fails |
| Bot.Dispatcher.Reload | bot.py:100-103 | Reloads as `LoadSkills` does, then answers the same reload text whatever happened |
| Taro.TopicsWellFormed | skills/taro.py:25-51 | Every section has at least three lessons, and no section key contains '_' |
| Taro.TopicsKeys | skills/taro.py:25-51 | The lesson plan has exactly the sections intro, minor, major and practice |
| Taro.KeyboardBuilder.constructor | skills/taro.py:60 | A new builder has no buttons and no row layout |
| Taro.KeyboardBuilder.AddButton | skills/taro.py:68 | The button is appended, and the layout is unchanged |
| Taro.KeyboardBuilder.Adjust | skills/taro.py:69 | The row sizes are replaced, and the buttons are unchanged |
| Taro.TopicKey | skills/taro.py:125 | `callback.data.split("_")[1]`. `Taro.TopicKeyOf` states that it reads back a key without '_' |
| Taro.TopicKeyOf | skills/taro.py:125 | `split("_")[1]` of "topic_<key>" is `key` when `key` has no '_' |
| Taro.KeyboardBuilder.AsMarkup | skills/taro.py:70 | `as_markup()`: the buttons and the row sizes added so far. `Taro.GetMainMenu` and `Taro.GetNavKeyboard` ensure that the markup they return is exactly `MainMenu` or `NavKeyboard` |
| Taro.MainMenu | skills/taro.py:59-70 | The main-menu keyboard. `Taro.MainMenuCallbacks`, `Taro.MainMenuSections` and `Taro.GetMainMenu` state its buttons, its layout and its construction |
| Taro.MainMenuCallbacks | skills/taro.py:59-70 | Four buttons, two per row. `open_section` reads the i-th section key from the "topic_" callback of the i-th button |
| Taro.MainMenuSections | skills/taro.py:59-70 | Every main-menu button opens a section of the lesson plan, and every section is opened by some button |
| Taro.GetMainMenu | skills/taro.py:59-70 | The builder loop yields exactly the main menu |
| Taro.NavTextsDistinct | skills/taro.py:74-78 | The four captions of the lesson keyboard differ from each other |
| Taro.NavPrefixes | skills/taro.py:74-78 | Navigation callbacks start with "nav_"; those of "ask_hint" and "taro_menu" do not |
| Taro.NavKeyboard | skills/taro.py:72-82 | The lesson keyboard. `Taro.NavKeyboardShape`, `Taro.FirstLessonKeyboard`, `Taro.LastLessonKeyboard` and `Taro.GetNavKeyboard` state its buttons, its layout and its construction |
| Taro.NavCallback | skills/taro.py:74-75 | The callback "nav_<key>_<idx>". `Taro.NavRoundTrip` states that `navigation` parses it back to the key and index, and `Taro.NavPrefixes` that it starts with "nav_" |
| Taro.BackButton | skills/taro.py:74 | The back button, naming lesson idx-1. `Taro.NavKeyboardShape` states that it is on the keyboard, first, exactly when idx > 0; `Taro.NavRoundTrip` that its callback parses back to lesson idx-1, and `Taro.NavStepInBounds` that in range it keeps the section and a lesson index in range |
| Taro.ForwardButton | skills/taro.py:75 | The forward button, naming lesson idx+1. `Taro.NavKeyboardShape` states that it is on the keyboard exactly when idx < total - 1; `Taro.NavRoundTrip` that its callback parses back to lesson idx+1, and `Taro.NavStepInBounds` that in range it keeps the section and a lesson index in range |
| Taro.NavKeyboardShape | skills/taro.py:72-82 | The back button is present exactly when idx > 0, and it comes first. The forward button is present exactly when idx < total - 1. "ask_hint" and "taro_menu" always close the keyboard, with only navigation buttons before them. There are exactly as many navigation buttons as those conditions allow. The first row holds two buttons exactly when idx > 0 and idx < total - 1; otherwise every row holds one |
| Taro.NavKeyboardLayout | skills/taro.py:72-82 | One navigation button per condition that holds (idx > 0, idx < total - 1), then ask and menu. The rows are (2, 1, 1) exactly when both hold, and (1, 1, 1) otherwise |
| Taro.GetNavKeyboard | skills/taro.py:72-82 | The builder steps yield exactly that keyboard |
| Taro.FirstLessonKeyboard | skills/taro.py:72-82 | The first lesson of a section offers forward, ask and menu, one per row |
| Taro.LastLessonKeyboard | skills/taro.py:72-82 | The last lesson of a section offers back, ask and menu |
| Taro.NavRoundTrip | skills/taro.py:131-133 | The key and `int()` index `navigation` reads from "nav_<key>_<idx>" are exactly the key and idx it was built from, for every integer idx |
| Taro.ParseNav | skills/taro.py:131-133 | How `navigation` reads a callback: the key and the `int()` index. `Taro.NavRoundTrip` states that it inverts the callback format |
| Taro.NavStepInBounds | skills/taro.py:72-82 | From a lesson in range, each navigation button leads to the same section and to an index in range |
| Taro.FollowStaysInBounds | skills/taro.py:114-142 | From a lesson in range, any sequence of keyboard presses, up to a press of the menu button, stays in the same section at an index in range, so the lookup in `run_lesson` never raises |
| Taro.Follow | skills/taro.py:72-136 | The lesson reached by a sequence of presses on the lesson keyboard: a navigation button moves to the lesson its callback names, "ask_hint" keeps the lesson and "taro_menu" ends the walk. `Taro.FollowStaysInBounds` states that it keeps the section and an in-range index |
| Taro.Fsm.constructor | skills/taro.py:106 | A new context holds no state |
| Taro.Fsm.Clear | skills/taro.py:107 | The state becomes empty |
| Taro.Fsm.SetState | skills/taro.py:171 | The state becomes the given state |
| Taro.PyIndex | skills/taro.py:142 | The lookup succeeds exactly for Python's index range -len..len-1. A non-negative index picks that element, and a negative one counts from the end |
| Taro.LessonPrompt | skills/taro.py:87-93 | The prompt sent for a topic. `Taro.RunLesson` states that the shown lesson's planner call is on this prompt with an empty history |
| Taro.LessonStatus | skills/taro.py:146 | The "generating" status for a topic. `Taro.RunLesson` states that it is the first edit of a shown lesson |
| Taro.LessonText | skills/taro.py:157 | The lesson message: the topic, its position idx+1 out of the section's lesson count, then the content. `Taro.RunLesson` states that it is the final edit; `Taro.FollowStaysInBounds` keeps that position between 1 and the lesson count |
| Taro.ViewOf | skills/taro.py:95-171 | Everything a shown lesson consists of: the status, the planner call, the stored "Урок '<topic>':" message, the lesson text and the lesson keyboard. `Taro.RunLesson`, `Taro.OpenSection` and `Taro.Navigation` state when it is shown |
| Taro.RunLesson | skills/taro.py:138-171 | A missing or empty section shows nothing. An index out of Python's range raises before anything is shown. In both cases the state is unchanged. Otherwise it shows the status, the planner's lesson for that topic, the saved assistant record, the "(idx+1/total)" header and the navigation keyboard, and the state becomes `lesson_active` |
| Taro.StartTaro | skills/taro.py:105-112 | The state is cleared, and the greeting and the main menu are shown |
| Taro.BackToMenu | skills/taro.py:114-121 | The state is cleared, and the shorter menu text and the main menu are shown |
| Taro.OpenSection | skills/taro.py:123-126 | Shows lesson 0 of the section the callback names and never raises. An unknown section shows nothing and keeps the state |
| Taro.Navigation | skills/taro.py:128-136 | An unreadable index, or a lookup that raises, ends in the error alert with the state unchanged. Otherwise it shows the lesson the callback names |

## Left out

- Network, Telegram and database I/O are left out. The HTTP post, `message.answer`, `edit_text` and `save_message` become parameters or returned values. Timeouts, credentials and the 64-byte limit on callback data are not modelled. Every database write is taken to succeed. A failing `save_message` in `HistoryMiddleware` (bot.py:30) would raise before the handler is called; the model does not cover that case.
- Agents.Call: the endpoint answers each (model, messages) pair one fixed way. Two requests with the same model and messages cannot get different outcomes, as they could over the network.
- Agents.Call: a `null` content in a well-formed reply would be returned as Python `None`; the model's replies are always strings. A bare `except:` would also swallow task cancellation; concurrency and cancellation are not modelled.
- Bot.Dispatcher.LoadSkills: only `Exception` is caught in the source, so a `BaseException` from a module would escape `load_skills`. Escaping exceptions are not modelled; every module failure is `Raises`.
- Bot.Dispatcher.LoadSkills: the order of `os.listdir` is a parameter, and the Python import system (caching, `reload`'s re-execution) is an oracle.
- `handle_new_skill`'s file write and `os.path.join` are left out. The model states which name and content are written. Its `except` path (bot.py:96-97) is not modelled. A failing write reaches it, and so does a failing `m.answer` of the format reply (bot.py:80) or of the confirmation (bot.py:95); it answers with the error text.
- `cmd_review`'s append to `CLAUDE.md` and its timestamp are left out. The model ends at the verifier call.
- `cmd_start`, `main` and the signal handler only send fixed text or start the program, so they are left out.
- `int()` is modelled for ASCII digits with an optional sign. The whitespace around them may be anything `isspace()` accepts except the information separators U+001C to U+001F: `int()` never strips those, so one anywhere in the text makes it fail. Python's underscores and non-ASCII digits are not modelled.
- Taro.RunLesson: the retry without Markdown after a failed `edit_text` (skills/taro.py:161-169) is left out. It shows the same content with plain formatting.
- Taro.RunLesson: the `except` in `generate_lesson_content` is left out. `Planner.process` never raises, because `_call` absorbs every error.
- `ask_hint_callback` only shows a fixed alert, so it is left out.
- `handle_student_question` (skills/taro.py:177-194) is left out. It calls `get_user_context(user_id, limit=6)`, but database.py's `get_user_context` takes no `limit` argument, so the handler raises before it replies.
- Logging (`logging.info`, `logging.error`) and the Sentry set-up (bot.py:15-16) have no effect on what the bot replies or stores, so they are left out.
- `TaroStates.menu` is declared and never entered; it appears only as `Taro.TaroState.MenuState`.
