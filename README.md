# Persona chat: a verified model of its core

The system is a small chat web application. A signed-in user picks one of
seven fixed personas and chats with it. The server forwards each
conversation to an external text-completion service. The persona's private
instruction template goes first, then the earlier messages, then the new
one. This project models in Dafny the parts of the application that hold
logic:

- **The persona registry** (`registry.dfy`, module `Registry`). It is the
  constant list of seven personas and a lookup by id.
- **The chat endpoint** (`chat_route.dfy`, module `ChatRoute`). It builds
  the payload for the completion service and reads the reply out of the
  service's answer. It turns every failure into one 500 answer.
- **The persona listing endpoint** (`personas_route.dfy`, module
  `PersonasRoute`). It decides between 500, 401, 404 and success. It strips
  the private template from every persona. It hides one of the two romantic
  personas, chosen by the user's stored gender.
- **The chat panel** (`chat_interface.dfy`, module `ChatUi`). It is a class
  holding the per-bot message lists, the text being typed and the typing
  flag. Its send step records the user's message, sends the earlier history,
  and records the reply.
- **The onboarding form** (`onboarding.dfy`, module `Onboarding`). It holds
  the name formatter (word-wise capitalisation), the date-of-birth guard,
  the submit step and the submit button's enabled state.
- **Support modules.** `wrappers.dfy` holds `Option`. `types.dfy` holds
  `Bot` and `Message`. `text.dfy` models the JavaScript string functions the
  code relies on: `trim`, ASCII `toUpperCase`/`toLowerCase`, `parseInt` and
  the decimal `toString` of a natural number.

Persona ids are modelled as `int`. `Bot.id` is declared as a string, but
the registry's ids are numbers. The code compares them with loose `==` and
`!=`, and the model assumes those comparisons behave as numeric equality.

The completion service, the user store, the session and the clock are not
called. Each one becomes a parameter:

- `generate` is the completion service.
- `connected`, `signedIn` and `lookup` are the store and the session.
- `response` is the chat endpoint's answer as the chat panel receives it.
- `Stamp` is a clock reading.

Three behaviours of the code are easy to misread; the model follows the
code:

- An unknown persona id leaves the template entry's text *undefined*
  (`None`), not empty.
- A failed completion call gives a 500 answer carrying only the error text.
  It carries no empty reply.
- On the client, that answer has no `reply` field, so the bot message is
  recorded with undefined content (`ReplyContent` gives `None`).

## Model

| member | source | states |
|---|---|---|
| Text.Trim | src/components/ChatInterface.tsx:27 | the trimmed text is empty exactly when the input is blank (JavaScript white space only); otherwise it starts and ends with a non-space |
| Text.ParseDecimal | src/app/onboarding/page.tsx:41 | `parseInt` reads back every natural number written in decimal, as `(i + 1).toString()` does for the select options |
| Registry.RegistryShape | src/app/api/personas/personas.ts:246-317 | the registry has seven entries with ids 1, 7, 2, 3, 4, 5, 6 in that order, pairwise distinct, all online, every template non-empty; id 1 is Shalini the girlfriend, id 7 Shekhar the boyfriend |
| Registry.Find | src/app/api/chat/route.ts:16 | `find` by id gives nothing exactly when no entry has the id, and otherwise the first entry that has it |
| Registry.FindRegistered | src/app/api/chat/route.ts:16 | with distinct ids, looking up any entry's id finds that entry |
| Registry.PersonaTextRegistered | src/app/api/personas/personas.ts:251-311 | every registry id resolves to its persona's template, which is non-empty |
| Registry.PersonaTextCases | src/app/api/chat/route.ts:14-17 | a template is found exactly for ids 1 to 7; any other id gives an undefined text and no failure |
| ChatRoute.RoleOf | src/app/api/chat/route.ts:20 | a history entry is sent as `"user"` exactly when its sender is the user, otherwise as `"model"` |
| ChatRoute.HistoryMessages | src/app/api/chat/route.ts:19-22 | the history maps to one entry per message, in order, each with the message's role and content |
| ChatRoute.Contents | src/app/api/chat/route.ts:12-32 | for N earlier messages the payload has N+2 entries: the template as `"model"` first, then entry i+1 carrying message i's content with role `"user"` iff its sender is the user, then the new message as `"user"`; a missing history counts as empty |
| ChatRoute.ContentsWithoutHistory | src/app/api/chat/route.ts:12 | without a history the payload is exactly the template and the new message |
| ChatRoute.ExtractReply | src/app/api/chat/route.ts:39 | a non-empty reply is the text of the first part of the first candidate; when that text exists it is the reply; every missing step gives `""` |
| ChatRoute.Post | src/app/api/chat/route.ts:10-47 | the answer is a reply exactly when the body is read and the service answers, and the reply is what `ExtractReply` reads from that answer; every failure is a 500 with the fixed error text |
| ChatRoute.ExamplePayload | src/app/api/chat/route.ts:14-32 | a two-message history sent to persona 3 gives the template of persona 3, "hi" as `"user"`, "hey" as `"model"`, then the new message |
| PersonasRoute.Project | src/app/api/personas/route.ts:20-27 | the public record copies id, name, tagline, avatar, online flag and profile, and has no template field |
| PersonasRoute.ProjectAll | src/app/api/personas/route.ts:20-27 | the projection keeps the length and the order of the registry |
| PersonasRoute.FilterOutMembers | src/app/api/personas/route.ts:28-33 | the filter keeps exactly the records whose id differs from the excluded one |
| PersonasRoute.FilterOutAbsent | src/app/api/personas/route.ts:28-33 | filtering out an id no record has changes nothing |
| PersonasRoute.FilterOutUnique | src/app/api/personas/route.ts:28-33 | filtering out an id exactly one record has removes that record only: one fewer entry, order kept |
| PersonasRoute.Get | src/app/api/personas/route.ts:8-40 | 500 exactly when the store connection fails or the profile query throws; 401 exactly when connected with no session; 404 exactly when signed in with no stored profile; otherwise success with the list visible for the stored gender |
| PersonasRoute.VisibleList | src/app/api/personas/route.ts:28-33 | a male user sees the projected registry without entry 7; anyone else, including a user with no gender, sees it without entry 1; six entries in registry order, none with the excluded id |
| PersonasRoute.OtherPartnerVisible | src/app/api/personas/route.ts:29-32 | the romantic persona that is not excluded stays visible: Shalini for a male user, Shekhar otherwise |
| ChatUi.Appended | src/components/ChatInterface.tsx:36-42 | the updater puts the message at the end of that bot's list, treating a missing list as empty, and leaves every other bot's list as it was |
| ChatUi.AppendedTwice | src/components/ChatInterface.tsx:36-42 | two updates for one bot grow its list by exactly those two messages in order, with the earlier entries untouched |
| ChatUi.ReplyContent | src/components/ChatInterface.tsx:59-66 | the recorded bot content is defined exactly when the endpoint answered with a reply, and is then that reply |
| ChatUi.ChatInterface.constructor | src/components/ChatInterface.tsx:15-18 | a new panel holds the given bot, an empty input, no message lists and no typing indicator |
| ChatUi.ChatInterface.SendMessage | src/components/ChatInterface.tsx:26-78 | the step `Sent` describes: blank input or an offline bot changes nothing and sends nothing; otherwise the input is cleared, the request carries the typed text and the bot's list as it was before the append, and the user message is appended; a received answer appends the bot message too and ends typing; no other bot's list changes |
| ChatUi.ChatInterface.HandleKeyPress | src/components/ChatInterface.tsx:81-86 | Enter without Shift performs exactly the send step `Sent` describes; any other key sends nothing and changes nothing |
| ChatUi.ChatInterface.SelectBot | src/app/chat/page.tsx:53-55 | switching bots replaces the bot and keeps the panel's lists and input |
| ChatUi.ChatInterface.ChangeInput | src/components/ChatInterface.tsx:220 | the input's change handler stores the typed text |
| Onboarding.JoinSplit | src/app/onboarding/page.tsx:33-37 | joining the words of `split(" ")` with single spaces gives back the name |
| Onboarding.CapitalizeWord | src/app/onboarding/page.tsx:35 | capitalising a word upper-cases its first character and lower-cases the rest |
| Onboarding.TitleCaseAcrossSpace | src/app/onboarding/page.tsx:33-37 | word-wise capitalisation treats the two sides of a space independently |
| Onboarding.JoinCapitalized | src/app/onboarding/page.tsx:33-37 | capitalising space-free words and joining them is the same as capitalising the joined text |
| Onboarding.FormatNameIsTitleCase | src/app/onboarding/page.tsx:33-37 | the formatter upper-cases each character at the start or after a space and lower-cases every other one |
| Onboarding.FormatNameShape | src/app/onboarding/page.tsx:33-37 | the formatter keeps the length and every space in place (empty words included), starts each word with a non-lower-case character, continues it with non-upper-case ones, and changes only letter case |
| Onboarding.FormatNameIdempotent | src/app/onboarding/page.tsx:33-37 | formatting a formatted name changes nothing |
| Onboarding.DateOf | src/app/onboarding/page.tsx:41 | the date is built from the parsed year and day and the parsed month minus one; a value that does not parse gives an undefined part |
| Onboarding.MonthOption | src/app/onboarding/page.tsx:124-136 | choosing month option i+1 (with decimal day and year) gives month index i and the chosen day and year |
| Onboarding.OnboardingForm.constructor | src/app/onboarding/page.tsx:22-28 | a new form has no gender, an empty name, month, day and year, no date of birth and is not loading |
| Onboarding.OnboardingForm.ChangeName | src/app/onboarding/page.tsx:97 | the name field stores the formatted name |
| Onboarding.OnboardingForm.ChangeGender | src/app/onboarding/page.tsx:107 | the gender choice is stored |
| Onboarding.OnboardingForm.UpdateDOB | src/app/onboarding/page.tsx:39-44 | a date is set only when month, day and year are all non-empty; otherwise the date is unchanged |
| Onboarding.OnboardingForm.SelectMonth | src/app/onboarding/page.tsx:124-127 | the month is stored and the date rebuilt from it and the current day and year under the same guard |
| Onboarding.OnboardingForm.SelectDay | src/app/onboarding/page.tsx:140-143 | the day is stored and the date rebuilt under the same guard |
| Onboarding.OnboardingForm.SelectYear | src/app/onboarding/page.tsx:156-159 | the year is stored and the date rebuilt under the same guard |
| Onboarding.OnboardingForm.HandleSubmit | src/app/onboarding/page.tsx:46-76 | without a session nothing is sent and the form stays loading; with one, loading ends, an invalid date sends nothing, and otherwise the email, name, gender and date are sent and the page moves on exactly when the answer reports success |

## Left out

- The completion service call and its model name are not called. The service is the parameter `generate` of `ChatRoute.Post`, and `None` stands for any exception.
- The user store (connection, profile query, profile creation), the NextAuth configuration and `getServerSession` are not modelled. They are the inputs `connected`, `signedIn` and `lookup` of `PersonasRoute.Get`. An exception thrown by `getServerSession` itself is not distinguished from a failed connection.
- `fetch`, `res.json()`, `router.push` and `signOut` are I/O. The chat panel receives the endpoint's answer as a parameter. The onboarding form receives the session email and the `success` flag as parameters.
- Overlapping sends are left out. `sendMessage` is async and two sends can interleave; the model runs one send as a single sequential step.
- `ChatUi.ChatInterface.SendMessage`: when the request or the reading of the body fails, the model stops after the user message, with typing still on. In the source the rejected promise likewise leaves the rest of the handler unrun.
- `Date`, `Date.now()`, `toISOString` and `toLocaleTimeString` are left out. A `Stamp` is an opaque clock reading. `DateParts` is the triple of numbers a `Date` is built from, so calendar rollover (31 February) and range limits are not modelled.
- The JSX is left out: rendering, scrolling, focus, avatar expansion, the sidebar and the chat page. The chat panel's send button is not modelled; its enabled state is `ChatUi.ChatInterface.CanSend`.
- `Onboarding.OnboardingForm.ChangeName`: the name input's 30-character limit (src/app/onboarding/page.tsx:98) is enforced by the browser before the change handler runs, so it is not modelled.
- The personas' prose (templates and profiles) is replaced by short non-empty stand-ins. Only the presence of a template matters to the logic.
- `Onboarding.FormatName`: upper and lower case are modelled for ASCII letters only. Unicode case mapping (including mappings that change the length) is not modelled.
- `Text.ParseInt`: numbers are unbounded, so JavaScript's floating-point rounding of very long digit strings is not modelled.
- `ChatRoute.Post`: the request fields are typed as the client sends them. A `null` history, a missing message and sender strings other than `"user"` and `"bot"` are not modelled.
- The history sent to the chat endpoint is never modified. Dafny's sequences are values, so this holds by construction and has no separate lemma.
- `Onboarding.OnboardingForm.CanSubmit` models the submit button's condition at src/app/onboarding/page.tsx:176. It is a predicate and has no contract of its own.
