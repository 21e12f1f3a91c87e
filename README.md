# DogAi screens: chat controller and registration wizard in Dafny

DogAi is a React Native app. A user registers a dog in a three-step
wizard, then chats with an AI persona that role-plays as that dog and can
comment on uploaded photos. This project models the two screens that hold
real logic and proves properties of them:

- **The chat screen** (`screens/ChatScreen.tsx`). It holds an append-only
  transcript of messages, the pending text in the input field and one busy
  flag, `isLoading`. It has three handlers: send text, pick a photo, and
  analyse the photo. Each one calls the AI gateway, which is a remote,
  opaque service. Prompts are built from the dog's profile by string
  templates.
- **The registration wizard** (`screens/RegistrationScreen.tsx`). It is a
  step counter that only goes forward, from 1 to 3. A photo gate blocks
  step 2 until there are three photos. Picking a photo appends it to the
  list, and personality traits are toggled on and off. On step 3, "Finish"
  hands the collected `DogProfile` to the chat screen.

Files and modules:

| file | module | contents |
|---|---|---|
| `wrappers.dfy` | `Wrappers` | `Option` |
| `js_text.dfy` | `JsText` | `String.prototype.trim`, `Array.prototype.join`, template concatenation, substring and suffix |
| `image_picker.dfy` | `ImagePicker` | the picker's result value and the checks both screens make on it |
| `profile.dfy` | `Profile` | the `DogProfile` record and `Gender` |
| `registration.dfy` | `Registration` | trait toggling, field edits, the wizard as pure steps, and the class `Wizard` that updates `step` and `dogProfile` in place |
| `chat_prompts.dfy` | `ChatPrompts` | the chat, greeting and photo prompt templates |
| `chat.dfy` | `Chat` | the conversation controller as pure steps, and the class `ChatScreen` that updates `messages`, `inputText`, `isLoading` in place |

How the chat handlers are modelled. Each handler is split at the `await`
on the gateway into two parts:

- **Begin.** This is everything before the `await`: append the user's
  message, set `isLoading`, clear the field, build the prompt and send it.
- **Settle.** This is what runs when the `await` finishes. On success the
  dog's message is appended. For a user handler, its `setIsLoading(false)`
  then runs too.

The calls that have been sent and have not settled are kept in `inFlight`.
Each one is a `Request`: who awaits it (the mount effect or a user
handler) and a `Query` naming the template (chat or photo) with the input
that fills it. The text actually sent is `Prompt(profile, query)`.
`PromptDeterminesQuery` proves that this text determines the query, so
recording the query instead of the text loses nothing.
An `Answered(i, reply)` event settles call `i`, and calls may settle in
any order. So the model captures the one real interleaving the source
allows. The mount effect sends the opening greeting without setting
`isLoading` (screens/ChatScreen.tsx:24-26). The user can therefore send a
message before the greeting arrives, and the greeting's reply does not
touch the busy flag.

A rejected gateway call is never caught (screens/ChatScreen.tsx:41-42, 48,
80-82). It appends nothing, and the `setIsLoading(false)` that follows the
`await` never runs. `StuckForever` proves what follows: from then on the
screen stays busy, and no user message is ever appended again.

Three behaviours of the code that are easy to miss:

- The opening greeting goes through the full role-play template. The mount
  effect passes the line "Woof! Hi, I'm <name>. Let's chat!" to
  `generateDogResponse`, which wraps it like any user input
  (`GreetingPromptQuotesName`).
- A gateway failure does not bring the controller back to idle. The busy
  flag stays set, in `sendMessage` and in `pickImage` alike. `pickImage`
  clears the flag whatever the picker returns. It does not clear it when
  the analysis call is rejected.
- A base64 payload that is present but empty counts as missing. This
  follows JavaScript truthiness (`if (!base64Image) return;`).

The trim check uses the full set of characters that JavaScript's `trim`
removes. These are WhiteSpace (section 12.2 of ECMAScript 2023) and
LineTerminator (section 12.3). So a message of only spaces, tabs, newlines
or ideographic spaces is ignored. Every prompt is a Dafny function of the
profile and the input, so the same inputs always give the same prompt
string.

## Model

| member | source | states |
|---|---|---|
| `JsText.Trim` | screens/ChatScreen.tsx:29 | `trim()` is empty exactly when every character is JavaScript whitespace; otherwise the result neither starts nor ends with whitespace |
| `JsText.TrimIsMiddle` | screens/ChatScreen.tsx:29 | `trim()` keeps exactly the part between a whitespace prefix and a whitespace suffix of the input |
| `JsText.TrimStart` | screens/ChatScreen.tsx:29 | the result is a suffix of the input, what is cut off is all whitespace, and the result does not start with whitespace |
| `JsText.TrimEnd` | screens/ChatScreen.tsx:29 | the result is a prefix of the input, what is cut off is all whitespace, and the result does not end with whitespace |
| `JsText.JoinContainsEach` | screens/ChatScreen.tsx:46 | every trait appears verbatim in `personality.join(', ')` |
| `JsText.JoinLength` | screens/ChatScreen.tsx:46 | the join has exactly one separator between neighbouring elements |
| `JsText.JoinSnoc` | screens/ChatScreen.tsx:46 | joining a list with one more element appends the separator and that element |
| `JsText.Join` | screens/ChatScreen.tsx:46 | definition of `join(sep)`; its properties are stated in `JoinLength`, `JoinSnoc` and `JoinContainsEach` |
| `JsText.ConcatContainsPart` | screens/ChatScreen.tsx:46 | every piece of a template literal occurs in the string it builds |
| `ImagePicker.Picked` | screens/RegistrationScreen.tsx:73 | definition of the wizard's test: not cancelled, assets present and non-empty; used by `Registration.PickImageStep` and, with the base64 test, by `Payload` |
| `ImagePicker.Payload` | screens/ChatScreen.tsx:71 | definition of line 71's test and line 80's argument; its property is stated in `Chat.PayloadIsWhatPickSends` and `Chat.PhotoExchange` |
| `ChatPrompts.ChatPrompt` | screens/ChatScreen.tsx:46 | definition of generateDogResponse's template; its properties are stated in `ChatPromptSplit`, `ChatPromptMentions`, `ChatPromptQuotesInput`, `ChatPromptDeterminesInput` and `ChatPromptUsesOnlyPersona` |
| `ChatPrompts.GreetingLine` | screens/ChatScreen.tsx:25 | definition of the mount effect's line; its property is stated in `GreetingPromptQuotesName` |
| `ChatPrompts.ChatPromptSplit` | screens/ChatScreen.tsx:46 | the chat prompt is the fixed persona text followed by the input in double quotes |
| `ChatPrompts.ChatPromptMentions` | screens/ChatScreen.tsx:46 | the chat prompt contains the name, breed, age, traits joined by ", ", favourite activity and favourite treat |
| `ChatPrompts.ChatPromptQuotesInput` | screens/ChatScreen.tsx:46 | the chat prompt ends with the input in double quotes |
| `ChatPrompts.ChatPromptDeterminesInput` | screens/ChatScreen.tsx:46 | for one profile, different inputs give different chat prompts |
| `ChatPrompts.ChatPromptUsesOnlyPersona` | screens/ChatScreen.tsx:46 | two profiles that agree on the six persona fields give the same chat prompt; photos, gender, weight and allergies do not affect it |
| `ChatPrompts.GreetingPromptQuotesName` | screens/ChatScreen.tsx:24-26 | the opening prompt is the chat template around "Woof! Hi, I'm <name>. Let's chat!": it ends with that line quoted and names the dog |
| `ChatPrompts.PhotoPrompt` | screens/ChatScreen.tsx:88-91 | definition of analyzePhoto's template; its properties are stated in `PhotoPromptSplit`, `PhotoPromptMentions`, `PhotoPromptEndsWithPayload` and `PhotoPromptDeterminesPayload` |
| `ChatPrompts.PhotoPromptSplit` | screens/ChatScreen.tsx:88-91 | the photo prompt is the fixed analysis text, the `[IMAGE]` marker line, then the payload |
| `ChatPrompts.PhotoPromptMentions` | screens/ChatScreen.tsx:88-91 | the photo prompt contains the name, breed and joined traits |
| `ChatPrompts.PhotoPromptEndsWithPayload` | screens/ChatScreen.tsx:88-91 | the photo prompt ends with the `[IMAGE]` marker line followed by the payload |
| `ChatPrompts.ChatAndPhotoPromptsDiffer` | screens/ChatScreen.tsx:46-88 | no chat prompt equals a photo prompt, whatever the inputs |
| `ChatPrompts.PhotoPromptDeterminesPayload` | screens/ChatScreen.tsx:88-91 | different payloads give different photo prompts |
| `ChatPrompts.NewTraitExtendsList` | screens/RegistrationScreen.tsx:94 | appending a trait to a non-empty list extends the prompts' trait text by ", " and that trait |
| `Chat.TypeStep` | screens/ChatScreen.tsx:120-126 | typing replaces the input only while the screen is not busy, and changes nothing else |
| `Chat.Prompt` | screens/ChatScreen.tsx:44-93 | definition of the text sent for a recorded call; its property is stated in `PromptDeterminesQuery` |
| `Chat.Mounted` | screens/ChatScreen.tsx:20-26 | definition of the mounted screen; its properties are stated in `MountedIsSingleFlight`, `GreetingArrives` and `ChatScreen.constructor` |
| `Chat.Step` | screens/ChatScreen.tsx:28-101 | definition of one event; its properties are stated in `StepAppendOnly`, `StepKeepsSingleFlight` and `BusyIgnoresInput` |
| `Chat.Run` | screens/ChatScreen.tsx:28-101 | definition of a sequence of events; its properties are stated in `RunAppendOnly`, `RunKeepsSingleFlight`, `StuckForever` and `SequentialTurns` |
| `Chat.PromptDeterminesQuery` | screens/ChatScreen.tsx:44-93 | two queries with the same prompt text are the same query: same template and same input |
| `Chat.SendMessageStep` | screens/ChatScreen.tsx:28-43 | all-whitespace input or a busy screen changes nothing; otherwise exactly one user message with the untrimmed input is appended, the input is cleared, the screen is busy, and a chat call for that input is sent |
| `Chat.AnalyzePhotoStep` | screens/ChatScreen.tsx:85-93 | a missing or empty payload sends nothing; otherwise a photo call for the payload is sent and nothing else changes |
| `Chat.PickImageStep` | screens/ChatScreen.tsx:59-83 | a busy screen, a cancelled pick, no assets or no payload leave the state as it was, with the busy flag cleared again after the picker; a usable pick appends one photo message with the asset's URI, stays busy and sends a photo call for the payload |
| `Chat.AnswerStep` | screens/ChatScreen.tsx:48-56 | a reply appends exactly one dog message with the gateway's text and clears the busy flag when a user handler was waiting; a rejection appends nothing and leaves the flag alone |
| `Chat.StepAppendOnly` | screens/ChatScreen.tsx:38-101 | every event keeps the old transcript as a prefix and adds at most one message |
| `Chat.RunAppendOnly` | screens/ChatScreen.tsx:38-101 | after any sequence of events the old transcript is a prefix of the new one |
| `Chat.MountedIsSingleFlight` | screens/ChatScreen.tsx:20-26 | after mounting the only call out is the greeting, and the screen is not busy |
| `Chat.StepKeepsSingleFlight` | screens/ChatScreen.tsx:29-31 | every event keeps at most one user call out, with the screen busy while it is, and at most one greeting |
| `Chat.RunKeepsSingleFlight` | screens/ChatScreen.tsx:28-83 | single flight holds after any sequence of events |
| `Chat.BusyIgnoresInput` | screens/ChatScreen.tsx:125-134 | while busy, typing, Send and Photo change nothing |
| `Chat.BlankInputIgnored` | screens/ChatScreen.tsx:29 | sending "", "   " or other whitespace-only input changes nothing |
| `Chat.TypeAndSend` | screens/ChatScreen.tsx:28-43 | typing non-blank text and pressing Send on an idle screen appends the user message, clears the field, sets busy and adds a chat call for the text |
| `Chat.AnswerNewest` | screens/ChatScreen.tsx:48-56 | settling the newest user call removes it; a reply appends the dog message and clears busy; a rejection changes nothing else |
| `Chat.TextExchange` | screens/ChatScreen.tsx:28-57 | a non-blank message whose call succeeds appends exactly the user's untrimmed text and then the dog's reply; the input is cleared and the screen is idle again |
| `Chat.TextExchangeFails` | screens/ChatScreen.tsx:41-48 | a non-blank message whose call is rejected appends only the user message and leaves the screen busy |
| `Chat.PhotoExchange` | screens/ChatScreen.tsx:59-102 | a usable photo whose call succeeds appends the photo message and then the dog's reply, and leaves the screen idle |
| `Chat.PayloadIsWhatPickSends` | screens/ChatScreen.tsx:71-80 | on an idle screen, a pick without a payload leaves the state as it was; a pick with one appends the photo message, sets busy and sends exactly the photo call for that payload |
| `Chat.IdleOnlyGreetingOut` | screens/ChatScreen.tsx:20-42 | on an idle screen that keeps single flight, every outstanding call is the greeting, so it is the only call that can settle while the picker is open |
| `Chat.GreetingDuringPicker` | screens/ChatScreen.tsx:59-82 | definition of pickImage in the code's order with the greeting settling during the picker's await; its property is stated in `GreetingDuringPickerCommutes` |
| `Chat.GreetingDuringPickerCommutes` | screens/ChatScreen.tsx:59-82 | the greeting settling while the picker is open gives the same state as settling just before the press |
| `Chat.StuckForever` | screens/ChatScreen.tsx:41-42 | busy with no user call out: after any events the screen is still busy, the input is unchanged and every new message is a dog message |
| `Chat.FailedSendSticks` | screens/ChatScreen.tsx:41-48 | after a rejected send, no event ever clears the busy flag or adds a user message |
| `Chat.OneTurn` | screens/ChatScreen.tsx:28-102 | one accepted, answered exchange from an idle screen appends its user and dog messages |
| `Chat.FirstTurn` | screens/ChatScreen.tsx:28-102 | the first of several turns leaves an idle state with its two messages appended, from which the rest of the turns run |
| `Chat.SequentialTurns` | screens/ChatScreen.tsx:28-102 | N accepted exchanges, each answered before the next, append their user and dog messages in call order, ending idle |
| `Chat.GreetingArrives` | screens/ChatScreen.tsx:24-26 | the greeting's reply on a fresh screen gives a transcript of one dog message, not busy |
| `Chat.ConversationLength` | screens/ChatScreen.tsx:24-57 | greeting plus N answered exchanges gives exactly 2N + 1 messages: the greeting, then user and dog alternating |
| `Chat.TranscriptAlternates` | screens/ChatScreen.tsx:38-56 | in the messages of sequential turns, user and dog alternate, starting with the user |
| `Chat.GreetingThenAlternating` | screens/ChatScreen.tsx:24-56 | after the greeting, odd positions are user messages and even positions dog messages |
| `Chat.ChatScreen.constructor` | screens/ChatScreen.tsx:20-26 | empty transcript and input, not busy, and the greeting call sent |
| `Chat.ChatScreen.GenerateDogResponse` | screens/ChatScreen.tsx:45-48 | called for a user turn only while busy; adds a chat call for the input on behalf of its caller and changes nothing else |
| `Chat.ChatScreen.OnChangeText` | screens/ChatScreen.tsx:120-126 | the new state is `TypeStep` of the old one |
| `Chat.ChatScreen.SendMessage` | screens/ChatScreen.tsx:28-43 | the new state is `SendMessageStep` of the old one, single flight is kept, the transcript only grows, and an accepted send leaves exactly one user call outstanding |
| `Chat.ChatScreen.AnalyzePhoto` | screens/ChatScreen.tsx:85-93 | called only while busy; the new state is `AnalyzePhotoStep` of the old one |
| `Chat.ChatScreen.PickImage` | screens/ChatScreen.tsx:59-83 | the new state is `PickImageStep` of the old one, single flight is kept, and the transcript only grows |
| `Chat.ChatScreen.Settle` | screens/ChatScreen.tsx:48-56 | the new state is `AnswerStep` of the old one, single flight is kept, and the transcript only grows |
| `Registration.RemoveAll` | screens/RegistrationScreen.tsx:93 | `filter(t => t !== trait)` drops every occurrence of the trait and keeps every other element with its multiplicity |
| `Registration.ToggleTrait` | screens/RegistrationScreen.tsx:92-94 | an absent trait is appended at the end; a present one is filtered out, every copy, with the others kept in order and with their multiplicity; so the trait is in the result exactly when it was not in the input, and on the set of traits toggling is symmetric difference with {trait} |
| `Registration.RemoveAllConcat` | screens/RegistrationScreen.tsx:93 | filtering a concatenation filters each part, so order is kept |
| `Registration.RemoveAllAbsent` | screens/RegistrationScreen.tsx:93 | filtering out an absent trait returns the list unchanged |
| `Registration.RemoveAllDistinct` | screens/RegistrationScreen.tsx:93 | filtering keeps a list free of duplicates |
| `Registration.ToggleKeepsDistinct` | screens/RegistrationScreen.tsx:92-94 | toggling keeps "personality has no duplicates" |
| `Registration.ToggleTwiceRestores` | screens/RegistrationScreen.tsx:92-94 | toggling an absent trait twice gives back the original list |
| `Registration.ToggleTwiceMovesToEnd` | screens/RegistrationScreen.tsx:92-94 | toggling a present trait twice removes all its copies and puts one at the end |
| `Registration.ToggleShrinksByOne` | screens/RegistrationScreen.tsx:92-94 | in a list without duplicates, toggling a present trait removes exactly one element |
| `Registration.ApplyEdit` | screens/RegistrationScreen.tsx:104-218 | each input sets its own field to the new value and leaves every other field, traits and photos included, as it was; a date picker dismissed without a date changes nothing |
| `Registration.PressNextStep` | screens/RegistrationScreen.tsx:81-87 | a press advances the step by exactly 1 below step 3 unless the gate is shut; at step 3 it leaves the state alone and hands off the current profile; only step 3 hands off |
| `Registration.PickImageStep` | screens/RegistrationScreen.tsx:65-79 | a successful pick appends the first asset's URI at the end of `photos`; a cancelled or empty result leaves it unchanged; nothing else changes |
| `Registration.InitialProfile` | screens/RegistrationScreen.tsx:48-61 | definition of the form's first profile; its properties are stated in `InitialIsValid` and `Wizard.constructor` |
| `Registration.NextDisabled` | screens/RegistrationScreen.tsx:230 | definition of the button's `disabled` expression; its property is stated in `PhotoGate` and `PressNextStep` |
| `Registration.ToggleStep` | screens/RegistrationScreen.tsx:89-96 | toggling changes only `personality`: an absent trait is appended at the end, a present one filtered out with the other traits in order |
| `Registration.WizardStep` | screens/RegistrationScreen.tsx:65-96 | definition of one wizard event; its properties are stated in `StepKeepsValid` and `RunKeepsValid` |
| `Registration.Handoff` | screens/RegistrationScreen.tsx:81-87 | definition of the profile an event hands to the chat screen; its property is stated in `HandoffHasThreePhotos` |
| `Registration.StepKeepsValid` | screens/RegistrationScreen.tsx:227-231 | every event keeps the step in {1,2,3} and step 3 only with at least three photos; the step never decreases and photos only grow |
| `Registration.RunKeepsValid` | screens/RegistrationScreen.tsx:47-87 | the same holds after any sequence of events |
| `Registration.InitialIsValid` | screens/RegistrationScreen.tsx:47-61 | the initial form satisfies the wizard invariant |
| `Registration.HandoffHasThreePhotos` | screens/RegistrationScreen.tsx:84-85 | whatever the user did before, a handed-off profile is the current one, at step 3, with at least three photos |
| `Registration.PhotoGate` | screens/RegistrationScreen.tsx:230 | from step 2 a press reaches step 3 exactly when there are at least three photos; steps 1 and 3 are never gated |
| `Registration.ThreePicksReachStepThree` | screens/RegistrationScreen.tsx:73-83 | Next, three successful picks and Next reach step 3 with those three URIs in pick order |
| `Registration.Wizard.constructor` | screens/RegistrationScreen.tsx:47-61 | step 1; empty strings, gender male, the given birthday, no allergies, and empty traits and photos |
| `Registration.Wizard.PressNext` | screens/RegistrationScreen.tsx:81-87 | the new state and hand-off are `PressNextStep` of the old state; the invariant is kept; a hand-off carries at least three photos |
| `Registration.Wizard.PickImage` | screens/RegistrationScreen.tsx:65-79 | the new state is `PickImageStep` of the old one; photos never shrink |
| `Registration.Wizard.TogglePersonality` | screens/RegistrationScreen.tsx:89-96 | the new state is `ToggleStep` of the old one |
| `Registration.Wizard.EditField` | screens/RegistrationScreen.tsx:104-218 | the new state is the old one with one field edited |

## Left out

- Rendering: JSX, styles, `FlatList`, `KeyboardAvoidingView`, and which step renders which input. The wizard's handlers are modelled as callable at any step. The app offers each one only on its own step.
- Navigation: `navigation.navigate('Chat', …)` becomes the returned hand-off profile.
- `generateAIResponse`: it is remote code that is not part of this model. Its reply, or its rejection, is an input: the `Answered` event carries it.
- Timeouts and hung requests: a call that never settles is simply never answered.
- `expo-image-picker` and the date picker are native. Their results are inputs. A rejection of the picker's own promise is not modelled.
- Message `id`s come from `Date.now()`, and `birthday` is a `Date`. They depend on the clock. Ids are omitted and the birthday is an opaque string.
- The picker's own `await` in the chat's `pickImage` is collapsed into the button press. Only the greeting can settle while the picker is open (`Chat.IdleOnlyGreetingOut`), and its settling during the picker gives the same state as its settling just before the press (`Chat.GreetingDuringPickerCommutes`).
- Stale closures: `sendMessage` reads `isLoading` from its render, and the wizard's inline setters use `{...dogProfile, field}` of their render. The model uses the current state. React's batching of `setState` is not modelled either.
- Answering a call that is not outstanding cannot happen in the app. `Chat.Step` reads it as no change.
- Lone UTF-16 surrogates: Dafny strings hold Unicode scalar values, so JavaScript strings carrying them are outside the model.
- The option lists `personalityTraits` and `activities`, and the `showDatePicker` flag: presentation only.
- screens/HomeScreen.tsx, screens/ProfileCreationScreen.tsx and screens/ProfileSelectionScreen.tsx: navigation, logging and a storage helper that is not part of this model.
