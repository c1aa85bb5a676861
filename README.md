# User profile dialog bot: a verified model

This project models the conversational core of a small order-taking bot. It is a component
dialog (`UserProfileDialog`) that registers a text prompt, a confirm prompt and a number
prompt with an age validator, plus a five-step waterfall: `nameStep`, `nameConfirmStep`,
`ageStep`, `confirmStep`, `summaryStep`. The `run` entry rule continues the active dialog
or starts the waterfall. Around it sits the bot class (`DialogBot`): it refuses to be built
without its collaborators, and it registers a message handler, a dialog handler that saves
state, and a welcome handler.

Files:

- `js.dfy` (module `Js`): the JavaScript values the steps pass around, with JavaScript
  truthiness (`if (step.result)`) and "an unassigned property reads as `undefined`".
- `user_profile_dialog.dfy` (module `UserProfileDialog`): the pure model. A `DialogState`
  record holds the step index, the `step.values` bag (optional `name`/`size`/`age`/`transport`
  slots), the stored `USER_PROFILE` and the outbox of sent messages. Each step is a function
  from (state, previous result) to (new state, action), where an action is a prompt, an
  immediate advance, or the end. `Execute` runs the registered step list. `Resume` hands a
  reply to the waiting prompt, and the number prompt keeps waiting until the validator accepts.
  `RunTurn` is `run`. `Converse` folds turns. The invariants are proved over all of these.
- `waterfall_steps.dfy` (module `WaterfallSteps`): the steps in the form `userProfileDialog.js`
  writes them. A `StepContext` object has the values bag, outbox and profile store as fields, and
  each step method assigns into them one after another. Each method is proved to leave the
  state of its pure counterpart and to return its action.
- `dialog_bot.dfy` (module `DialogBot`): the constructor's three argument checks, the fields
  it stores, the `DialogState` property it creates, and the three handlers. Each handler
  records its side effects, in order, on the turn context. The welcome loop is a `while` loop
  proved against a specification function.

What the model shows about the dialog as written:

- `sizeStep` is not in the registered step list, so it never runs. `values.name` is written
  only there, and `values.transport` is written nowhere. Any profile the summary stores
  therefore has `name` and `transport` undefined (`ConfirmedProfileLacksNameAndTransport`).
- `nameConfirmStep` prompts with `MESSAGE_PROMPT`, and that id is never registered. Asking
  for an unknown dialog id throws, and the model records this as the `Faulted` status. The
  bot saves state only after `run` returns, so the failing turn leaves the name prompt
  waiting. Every later reply is taken as the size, echoed, and fails the same way. No
  conversation from a fresh start is asked its age or stores a profile
  (`ConversationNeverStoresProfile`, `AnaScenario`).
- The parts after `nameConfirmStep` are still proved on their own terms. Declining the age
  skips the number prompt and stores -1. A rejected age changes nothing. The final "yes"
  overwrites the store and the final "no" leaves it alone. The age invariant holds in every
  session consistent with the step wiring: an age is stored only as -1 or within (0, 150)
  (`StoredAgeAlwaysValid`).

## Model

| member | source | states |
|---|---|---|
| `Js.OrUndefined` | dialogs/userProfileDialog.js:109-111 | reading a bag slot gives the assigned value, or `undefined` if the slot was never assigned |
| `UserProfileDialog.AgePromptValidator` | dialogs/userProfileDialog.js:127-130 | accepts exactly when recognition succeeded and the value is between 1 and 149; so it rejects 0, 150 and any failed recognition |
| `UserProfileDialog.Recognize` | dialogs/userProfileDialog.js:27 | the number prompt's recognition succeeds exactly for numeric replies and then carries that number |
| `UserProfileDialog.NameStep` | dialogs/userProfileDialog.js:57-59 | prompts with the registered NAME_PROMPT and changes nothing |
| `UserProfileDialog.SizeStep` | dialogs/userProfileDialog.js:61-67 | writes `values.name` (and nothing else in the bag), sends the greeting, and prompts with the unregistered MESSAGE_PROMPT |
| `UserProfileDialog.NameConfirmStep` | dialogs/userProfileDialog.js:69-77 | writes `values.size` from the name prompt's result, sends the size echo, and prompts with MESSAGE_PROMPT (not registered) and the choices "sim"/"nao" |
| `UserProfileDialog.AgeStep` | dialogs/userProfileDialog.js:79-90 | prompts for a number with a retry message iff the result is truthy; otherwise advances at once with -1; the state is untouched either way |
| `UserProfileDialog.AgeMessage` | dialogs/userProfileDialog.js:95 | the "age not given" message exactly when the age is strictly -1, otherwise the age sentence with that age |
| `UserProfileDialog.ConfirmStep` | dialogs/userProfileDialog.js:92-102 | sets `values.age` to the result and leaves the other slots alone, sends the age or no-age message, and asks for confirmation with the registered CONFIRM_PROMPT |
| `UserProfileDialog.Collected` | dialogs/userProfileDialog.js:109-111 | the stored profile takes transport, name and age from the bag, each the assigned value, or undefined when the slot was never assigned |
| `UserProfileDialog.SummaryMessage` | dialogs/userProfileDialog.js:113-116 | the summary names transport and name, and has the age clause iff the age is not -1 |
| `UserProfileDialog.SummaryStep` | dialogs/userProfileDialog.js:104-125 | a truthy result overwrites the store with the collected values, whatever it held, and sends the summary; a falsy one sends only the decline message and leaves the store alone; both end the dialog |
| `UserProfileDialog.Transition` | dialogs/userProfileDialog.js:29-35 | no step writes `values.transport`; only the size step writes `values.name`; only the summary step touches the store; only the age step advances without prompting, and then with -1; only the summary step ends |
| `UserProfileDialog.Execute` | dialogs/userProfileDialog.js:29-35 | running the registered list from any step never changes `values.name` or `values.transport`; it only appends to the outbox; it stops waiting on a registered prompt, faulted on an unregistered id, or complete |
| `UserProfileDialog.Resume` | dialogs/userProfileDialog.js:27 | a reply the number prompt's validator rejects leaves the session exactly as it was, still waiting; an accepted one is stored as `values.age`, echoed, and the dialog waits on CONFIRM_PROMPT at step 3 |
| `UserProfileDialog.Begin` | dialogs/userProfileDialog.js:53 | a new waterfall starts with an empty bag at the first step and ends the turn waiting on NAME_PROMPT, keeping the store and outbox |
| `UserProfileDialog.Continue` | dialogs/userProfileDialog.js:51 | continuing reports the empty status exactly when no prompt is waiting, and then changes nothing |
| `UserProfileDialog.RunTurn` | dialogs/userProfileDialog.js:46-55 | `run` begins a new dialog iff continuing reported the empty status; with a prompt waiting it only resumes that one |
| `UserProfileDialog.Converse` | bots/dialogBot.js:19-33 | one `run` plus what is saved after it, per inbound message; a message the bot has sent is never taken back |
| `UserProfileDialog.Persisted` | bots/dialogBot.js:28-33 | after a turn whose step threw, the next turn sees the state saved before it, plus the messages already sent; otherwise it sees the turn's state |
| `UserProfileDialog.SizeStepNeverRegistered` | dialogs/userProfileDialog.js:29-35 | no position of the registered step list holds the size step, and the name step is only at position 0 |
| `UserProfileDialog.DecliningAgeSkipsNumberPrompt` | dialogs/userProfileDialog.js:86-101 | a falsy answer at the age step issues no number prompt; in the same turn it stores age -1, sends "age not given" and waits on CONFIRM_PROMPT at step 3 |
| `UserProfileDialog.RejectedAgeChangesNothing` | dialogs/userProfileDialog.js:129 | an age of 0 or less, or of 150 or more, leaves the waiting number prompt and the state unchanged |
| `UserProfileDialog.FinalConfirmation` | dialogs/userProfileDialog.js:104-124 | resuming the confirm prompt completes the dialog; "yes" stores the collected profile and "no" leaves the store as it was |
| `UserProfileDialog.ExecuteConsistent` | dialogs/userProfileDialog.js:79-101 | running steps from a consistent start keeps ages at -1 or in (0, 150), and waits only where the step wiring allows |
| `UserProfileDialog.RunTurnConsistent` | dialogs/userProfileDialog.js:46-55 | one turn of `run` preserves that invariant |
| `UserProfileDialog.ConverseConsistent` | dialogs/userProfileDialog.js:46-55 | every conversation from a consistent session stays consistent |
| `UserProfileDialog.StoredAgeAlwaysValid` | dialogs/userProfileDialog.js:93-111 | every profile the dialog stores has age -1 or an age in (0, 150) |
| `UserProfileDialog.ExecuteLeavesNameAndTransport` | dialogs/userProfileDialog.js:62 | running steps never assigns `values.name` or `values.transport`; any profile stored meanwhile has both undefined |
| `UserProfileDialog.ConfirmedProfileLacksNameAndTransport` | dialogs/userProfileDialog.js:109-110 | across any conversation, the bag never gets a name or transport, and a stored profile has both undefined |
| `UserProfileDialog.RunTurnStuckBeforeAge` | dialogs/userProfileDialog.js:69-77 | a reply to the waiting name prompt is stored as the size and echoed; the step then faults on MESSAGE_PROMPT and the name prompt is still waiting next turn |
| `UserProfileDialog.ConverseStuck` | dialogs/userProfileDialog.js:69-77 | from a session at or before the name prompt, every later turn ends with the name prompt waiting and the store empty |
| `UserProfileDialog.ConversationNeverStoresProfile` | dialogs/userProfileDialog.js:76 | no conversation from a fresh start reaches the age step or writes the profile store |
| `UserProfileDialog.AnaScenario` | dialogs/userProfileDialog.js:57-77 | the first message yields the name prompt; "Ana" is then stored as the size, echoed, and the turn faults; the name prompt stays waiting |
| `WaterfallSteps.StepContext.NameStep` | dialogs/userProfileDialog.js:57-59 | returns the name step's prompt and changes nothing |
| `WaterfallSteps.StepContext.SizeStep` | dialogs/userProfileDialog.js:61-67 | assigning the name and sending the greeting leaves the pure size step's state and action |
| `WaterfallSteps.StepContext.NameConfirmStep` | dialogs/userProfileDialog.js:69-77 | assigning the size and sending the echo leaves the pure name-confirm step's state and action |
| `WaterfallSteps.StepContext.AgeStep` | dialogs/userProfileDialog.js:79-90 | returns the pure age step's action and changes nothing |
| `WaterfallSteps.StepContext.ConfirmStep` | dialogs/userProfileDialog.js:92-102 | assigning the age and then choosing the message from the assigned slot leaves the pure confirm step's state and action |
| `WaterfallSteps.StepContext.SummaryStep` | dialogs/userProfileDialog.js:104-125 | fetching the profile, or storing a blank one first, then overwriting its three fields gives the pure summary step's state for every blank profile |
| `DialogBot.ConversationState.CreateProperty` | bots/dialogBot.js:17 | creating a property appends its name to the conversation state's properties and returns an accessor for it |
| `DialogBot.FirstMissing` | bots/dialogBot.js:10-12 | reports the conversation state if it is missing, else the user state if missing, else the dialog if missing, else nothing |
| `DialogBot.WelcomeCount` | bots/dialogBot.js:36-41 | there are exactly as many welcomes as added members whose id differs from the recipient's, and nothing else; none for an empty list or when only the bot was added |
| `DialogBot.DialogBot.constructor` | bots/dialogBot.js:14-17 | stores the three collaborators unchanged and creates exactly one `DialogState` property on the conversation state |
| `DialogBot.DialogBot.Create` | bots/dialogBot.js:8-17 | throws for exactly the first missing argument and leaves the conversation state untouched; otherwise builds a new bot holding the given collaborators |
| `DialogBot.DialogBot.OnMessage` | bots/dialogBot.js:19-26 | runs the dialog with the `DialogState` accessor, then calls the next handler, except when the run threw |
| `DialogBot.DialogBot.OnDialog` | bots/dialogBot.js:28-33 | saves conversation state, then user state, both with force false, then calls the next handler |
| `DialogBot.DialogBot.OnMembersAdded` | bots/dialogBot.js:35-44 | sends, in list order, one welcome per added member whose id is not the recipient's, then calls the next handler |

## Left out

- `index.js` is not part of this model: the HTTP server, `.env` loading, adapter and in-memory
  storage setup are plumbing. Its turn-error handler calls `this.ConversationState.delete` at
  module scope (index.js:47). That `this` does not refer to the `conversationState` object, so
  the clean-up it intends cannot happen. This is a defect there and is not modelled.
- Framework internals are abstract inputs: prompt rendering and retry messages,
  `DialogSet`/`DialogContext` mechanics, serialisation of state between turns, and the
  `ActivityHandler` dispatch that invokes the handlers. `saveChanges` appears only as a
  recorded effect, plus the rule (`Persisted`) that a turn which threw saves nothing.
- Prompt recognition: a reply is the result the prompt hands on. The text and confirm prompts
  pass it through. The number prompt counts a reply as recognised iff it is a number
  (`Recognize`).
- `async`/`await` and suspension: each step, and each turn, is one atomic transition.
- `UserProfile` (`../userProfile`) and the welcome text (`../resources/message`) are not part of
  this model. The profile has only the three fields the summary step writes, and the default
  profile is an arbitrary `blank` parameter of `WaterfallSteps.StepContext.SummaryStep`. The
  welcome is a single message tag.
- `WaterfallSteps.StepContext.SummaryStep`: the profile is a value, not a shared object, so the
  aliasing between the fetched profile and the stored one is not modelled. Only the final
  stored value is.
- Floating point: numbers are integers, so fractional ages from the number prompt and `NaN`
  truthiness are not modelled.
- Message and prompt texts are tags. The only text distinction kept is age versus no age.
- What the framework does after an unknown dialog id beyond throwing is modelled only as the
  `Faulted` status. The error handler's own messages are out of scope.
- `DialogBot.DialogBot.OnMessage`: whether the run throws is a parameter; the effect records that the dialog ran with the `DialogState`
  accessor. What that run does is `UserProfileDialog.RunTurn`; the two are not linked.
- Console logging (bots/dialogBot.js:20) is not modelled.
