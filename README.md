# Intimate Haven Guide — the page state logic, in Dafny

This project models the state logic of five pages of the Intimate Haven Guide single-page app.
It proves what each page's event handlers do to that state. Each page is a React component
whose `useState` hooks are its state. Here each page is a class whose fields are those hooks,
and each handler is a method:

- **Blind Spot Mirror** (`BlindSpotMirror`). A guided session over one of three pattern
  categories of four prompts each.
  - A saved answer is trimmed and filed at the front of the discovery list.
  - Saving or skipping moves to the next prompt. After the last prompt the page returns to
    category selection.
  - The page shows the newest three discoveries.
- **Relationship Tracker** (`RelationshipTracker`). A form that logs interactions at the front
  of a list. The form accepts any non-empty person and description. It does not trim.
  `getTypeLabel` and `getEnergyColor` give the badge label and colour.
- **Expression Scripts** (`ExpressionScripts`).
  - A fixed catalogue of eight templates in three categories, with a category filter.
  - An inline editor whose draft is page-wide state.
  - "Save Changes" closes the editor but stores nothing and keeps the draft. So no card ever
    shows a customised text, and the next card opened in the editor shows the previous
    draft (`DraftCarriesOver`).
- **Reflection Coach** (`ReflectionCoach`).
  - A chat that opens with the coach's greeting.
  - Every non-blank reflection is stored as typed, followed by one of five canned replies.
  - Enter sends; Shift+Enter does not.
  - A sidebar prompt fills the text box.
- **Onboarding** (`Onboarding`). A three-step wizard: name, goal, then a welcome screen.
  - The first step can be left only with a non-blank name.
  - The second step can be left only with a chosen goal, or back to the first.
  - Completing leads to `/dashboard`.

Module `Js` holds the JavaScript built-ins the handlers rely on:

- `String.prototype.trim`, over the ECMAScript WhiteSpace and LineTerminator code points;
- `Array.prototype.find` and `filter`;
- `slice(0, n)`;
- string truthiness.

React batches the setters of one handler, and the handler reads the state from before the
event. So every handler is modelled as one atomic step from the old state to the new one.

The model follows these conventions:

- The category cards (shown only off-session) and the wizard's per-step controls get a
  `requires` for the state in which they are rendered, because the invariants need it. The
  other handlers may be called in any state, and their contracts hold there too.
- A value the control can only produce from a fixed list is passed as an index into that list
  (the type selector, the energy buttons, the radio group and the prompt buttons).
- A disabled button's handler keeps its own guard, so a click on it does nothing.
- The clock readings (`Date.now()`, `new Date()`) are parameters.
- `Math.floor(Math.random() * 5)` is the parameter `pick < 5`.

Three points of the code are easy to expect otherwise, and the model states them as written:

- Onboarding has three steps, and "Back" exists only on step 2.
- The tracker checks only that person and description are non-empty strings; a
  whitespace-only entry is accepted.
- `saveCustomization` stores nothing: no script's `customized` text is ever set.

## Model

| member | source | states |
|---|---|---|
| Js.Trim | src/pages/ReflectionCoach.tsx:22 | `trim` drops white space at both ends: the result is an infix of the input with only white space around it, neither starts nor ends with white space, and is empty exactly when the input is blank |
| Js.TrimKeeps | src/pages/BlindSpotMirror.tsx:93 | `trim` leaves a string unchanged exactly when it has no white space at either end |
| Js.TrimIdempotent | src/pages/BlindSpotMirror.tsx:93 | trimming a trimmed answer changes nothing |
| Js.Find | src/pages/BlindSpotMirror.tsx:81 | `find` gives `undefined` exactly when no element matches, and otherwise the first matching element |
| Js.FindUnique | src/pages/Onboarding.tsx:166 | with one matching element, `find` gives that element |
| Js.Filter | src/pages/ExpressionScripts.tsx:118-120 | `filter` keeps each element that satisfies the predicate exactly as often as it occurs, and drops all others |
| Js.FilterIsSubsequence | src/pages/ExpressionScripts.tsx:118-120 | `filter` keeps the catalogue order of what it keeps |
| Js.Take | src/pages/BlindSpotMirror.tsx:189 | `slice(0, n)` is a prefix of at most `n` elements, all of the list when it is shorter |
| BlindSpotMirror.CategoryOf | src/pages/BlindSpotMirror.tsx:81 | the current category is the catalogue entry with the selected id; there is none exactly when nothing is selected or no id matches |
| BlindSpotMirror.CategoryOfId | src/pages/BlindSpotMirror.tsx:39-81 | selecting a category card's id finds that very category (ids are distinct) |
| BlindSpotMirror.TitleOf | src/pages/BlindSpotMirror.tsx:89-92 | a discovery is filed under the current category's title (not its id), or "" when no category is found |
| BlindSpotMirror.PromptAt | src/pages/BlindSpotMirror.tsx:82-85 | a non-empty current prompt is one of the current category's prompts |
| BlindSpotMirror.PromptInCategory | src/pages/BlindSpotMirror.tsx:82-85 | in a session the prompt on show is the category's prompt at the current index |
| BlindSpotMirror.Advance | src/pages/BlindSpotMirror.tsx:99-106 | after a save or skip the session is on the next prompt of the same category, or back at category selection with index 0; it stays in session exactly when a next prompt exists; the session invariant is kept |
| BlindSpotMirror.SessionLength | src/pages/BlindSpotMirror.tsx:99-119 | from a category's first prompt, the first 3 saves or skips stay in the session on prompts 2–4, and the 4th returns to category selection |
| BlindSpotMirror.SeedIsValid | src/pages/BlindSpotMirror.tsx:30-37 | the seed discovery has a non-empty trimmed insight filed under a catalogue title |
| BlindSpotMirror.SavedIsValid | src/pages/BlindSpotMirror.tsx:87-95 | a saved answer becomes a discovery whose insight is the trimmed, non-empty answer, filed under a catalogue title |
| BlindSpotMirror.ValidAfterPrepend | src/pages/BlindSpotMirror.tsx:96 | putting a valid discovery in front keeps every discovery valid |
| BlindSpotMirror.Session.constructor | src/pages/BlindSpotMirror.tsx:27-37 | the page opens on category selection with an empty answer and the one seed discovery |
| BlindSpotMirror.Session.SelectCategory | src/pages/BlindSpotMirror.tsx:155 | a category card starts that category's session at prompt 0; answer and discoveries are kept |
| BlindSpotMirror.Session.EditResponse | src/pages/BlindSpotMirror.tsx:254 | typing sets the answer |
| BlindSpotMirror.Session.SaveDiscovery | src/pages/BlindSpotMirror.tsx:87-108 | with a non-blank answer in a session, the trimmed answer is filed first under the category title, the answer is cleared and the session advances; otherwise nothing changes; all discoveries stay valid |
| BlindSpotMirror.Session.SkipPrompt | src/pages/BlindSpotMirror.tsx:110-119 | skipping advances the session and clears the answer, keeping the discoveries |
| BlindSpotMirror.Session.ExitSession | src/pages/BlindSpotMirror.tsx:227-231 | exit returns to category selection with index 0 and an empty answer; discoveries are kept |
| BlindSpotMirror.Session.RecentDiscoveries | src/pages/BlindSpotMirror.tsx:189 | the recent card shows a prefix of the discoveries: the newest three, or all when fewer |
| RelationshipTracker.FromForm | src/pages/RelationshipTracker.tsx:51-55 | the new interaction carries the form's person, type, description and energy, the clock's id and the date |
| RelationshipTracker.TypeLabelCases | src/pages/RelationshipTracker.tsx:71-80 | each of the five types has its own fixed label, distinct from the others and from the type; any other string is shown as it is |
| RelationshipTracker.EnergyColorCases | src/pages/RelationshipTracker.tsx:82-89 | high and medium get different colours; every value that is neither, known or unknown, gets the colour of low |
| RelationshipTracker.Tracker.constructor | src/pages/RelationshipTracker.tsx:21-47 | the page opens with the two seed interactions, the blank form and the form hidden |
| RelationshipTracker.Tracker.AddInteraction | src/pages/RelationshipTracker.tsx:49-60 | with a non-empty person and description the new interaction goes first, the form is reset and hidden; otherwise nothing changes; every logged interaction keeps a non-empty person and description and a known type and energy |
| RelationshipTracker.Tracker.ToggleForm | src/pages/RelationshipTracker.tsx:108 | "Log Interaction" flips the form's visibility |
| RelationshipTracker.Tracker.CancelForm | src/pages/RelationshipTracker.tsx:184 | "Cancel" hides the form and keeps what was typed |
| RelationshipTracker.Tracker.EditPerson | src/pages/RelationshipTracker.tsx:138 | typing sets the person and nothing else of the form |
| RelationshipTracker.Tracker.EditDescription | src/pages/RelationshipTracker.tsx:161 | typing sets the description and nothing else of the form |
| RelationshipTracker.Tracker.SelectType | src/pages/RelationshipTracker.tsx:145-152 | the selector sets the type to one of the five options and nothing else of the form |
| RelationshipTracker.Tracker.SelectEnergy | src/pages/RelationshipTracker.tsx:168-175 | the buttons set the energy to low, medium or high and nothing else of the form |
| RelationshipTracker.LogThree | src/pages/RelationshipTracker.tsx:49-60 | logging A, B, C in that order lists C, B, A, then the seeds |
| ExpressionScripts.FilteredScripts | src/pages/ExpressionScripts.tsx:118-120 | "all" shows the whole list; any other filter shows exactly the scripts of that category, each as often as in the list and in list order; the result (and so the "No scripts found" card at line 294) is empty exactly when the list is empty under "all", or no script has the selected category |
| ExpressionScripts.View.VisibleScripts | src/pages/ExpressionScripts.tsx:118-120 | with the filter set from the buttons, the cards on show are the catalogue filter, never empty, so the "No scripts found" card (line 294) never appears |
| ExpressionScripts.ScriptIdsDistinct | src/pages/ExpressionScripts.tsx:59-116 | the eight script ids are distinct, so at most one card is being edited |
| ExpressionScripts.ScriptCategoriesKnown | src/pages/ExpressionScripts.tsx:35-116 | every script's category is one of the three filter buttons |
| ExpressionScripts.CategoriesNonEmpty | src/pages/ExpressionScripts.tsx:35-120 | no category is called "all", and every category button shows at least one script |
| ExpressionScripts.CategoryFiltersSplit | src/pages/ExpressionScripts.tsx:118-120 | for any list whose scripts all have a button's category, the three category filters together hold each script exactly as often as the list (multiset equality), so their lengths add up to the list's |
| ExpressionScripts.FiltersPartition | src/pages/ExpressionScripts.tsx:59-120 | the three category filters together hold exactly the catalogue's 8 scripts, each once (multiset equality), and their lengths add up to 8 |
| ExpressionScripts.DisplayTextCases | src/pages/ExpressionScripts.tsx:264-271 | a card shows and copies its non-empty customised text when it has one and its template otherwise; the text is empty only when both are |
| ExpressionScripts.EditorTextCases | src/pages/ExpressionScripts.tsx:235 | the editor shows the draft when there is one and otherwise the card's own text; it is empty only when all three texts are |
| ExpressionScripts.CatalogueShowsTemplates | src/pages/ExpressionScripts.tsx:264 | no catalogue script is customised, so every card shows and copies its template |
| ExpressionScripts.CategoryOf | src/pages/ExpressionScripts.tsx:197 | the description card shows the category whose id is selected; there is none exactly when no category has that id |
| ExpressionScripts.View.constructor | src/pages/ExpressionScripts.tsx:31-33 | the page opens on "all", with no editor and no draft |
| ExpressionScripts.View.ShowAll | src/pages/ExpressionScripts.tsx:171 | "All Scripts" selects "all" |
| ExpressionScripts.View.SelectCategory | src/pages/ExpressionScripts.tsx:180 | a category button selects its category |
| ExpressionScripts.View.StartEditing | src/pages/ExpressionScripts.tsx:280 | "Customize" opens the card's editor and keeps the draft |
| ExpressionScripts.View.EditTemplate | src/pages/ExpressionScripts.tsx:236 | typing sets the draft |
| ExpressionScripts.View.SaveCustomization | src/pages/ExpressionScripts.tsx:130-137 | "Save Changes" only closes the editor |
| ExpressionScripts.View.CancelEditing | src/pages/ExpressionScripts.tsx:251-254 | "Cancel" closes the editor and drops the draft |
| ExpressionScripts.DraftCarriesOver | src/pages/ExpressionScripts.tsx:130-137 | after saving a draft on one card, the next card's editor shows that draft |
| ExpressionScripts.CancelRestoresTemplate | src/pages/ExpressionScripts.tsx:251-254 | after "Cancel", the next card's editor shows that card's template |
| ReflectionCoach.Exchange | src/pages/ReflectionCoach.tsx:25-46 | a send keeps the old conversation and adds exactly two entries after it: the user's text as typed, then the coach reply |
| ReflectionCoach.ExchangeKeepsShape | src/pages/ReflectionCoach.tsx:21-48 | sending a non-blank reflection answered from the pool keeps the conversation in shape: greeting first, then non-blank user reflections, each followed by a reply from the pool |
| ReflectionCoach.EveryReflectionAnswered | src/pages/ReflectionCoach.tsx:40-46 | in a conversation of that shape every user reflection is directly followed by a coach reply from the pool |
| ReflectionCoach.PromptsAreSendable | src/pages/ReflectionCoach.tsx:57-63 | every sidebar prompt is a non-blank reflection |
| ReflectionCoach.Chat.constructor | src/pages/ReflectionCoach.tsx:11-19 | the chat opens with an empty box, no recording and only the greeting |
| ReflectionCoach.Chat.EditReflection | src/pages/ReflectionCoach.tsx:140 | typing sets the reflection |
| ReflectionCoach.Chat.SendReflection | src/pages/ReflectionCoach.tsx:21-48 | a blank reflection changes nothing; otherwise the untrimmed reflection and the chosen pool reply are appended and the box is emptied; the conversation keeps its shape |
| ReflectionCoach.Chat.KeyPress | src/pages/ReflectionCoach.tsx:50-55 | Enter without Shift suppresses the newline and sends; any other key changes nothing |
| ReflectionCoach.Chat.UsePrompt | src/pages/ReflectionCoach.tsx:187 | a prompt button fills the box with that prompt |
| ReflectionCoach.Chat.ToggleVoice | src/pages/ReflectionCoach.tsx:150 | the voice button flips the recording flag |
| ReflectionCoach.SendPrompt | src/pages/ReflectionCoach.tsx:50-55 | a prompt click followed by Enter gives greeting, prompt, reply |
| Onboarding.SelectedGoal | src/pages/Onboarding.tsx:166 | the focus goal is the goal whose id was chosen; there is none exactly when no goal has that id |
| Onboarding.SelectedGoalOf | src/pages/Onboarding.tsx:17-46 | choosing goal `k` shows goal `k` |
| Onboarding.GoalIdsDistinct | src/pages/Onboarding.tsx:17-46 | the four goal ids are distinct |
| Onboarding.Wizard.constructor | src/pages/Onboarding.tsx:12-14 | the wizard opens at step 1 with nothing entered |
| Onboarding.Wizard.EditName | src/pages/Onboarding.tsx:72 | typing at step 1 sets the name |
| Onboarding.Wizard.ChooseGoal | src/pages/Onboarding.tsx:108-124 | at step 2 the radio group sets the goal to one of the four ids |
| Onboarding.Wizard.Continue | src/pages/Onboarding.tsx:79-83 | step 1 goes to step 2 exactly when the name is not blank |
| Onboarding.Wizard.ConfirmGoal | src/pages/Onboarding.tsx:143-147 | step 2 goes to step 3 exactly when a goal is chosen |
| Onboarding.Wizard.Back | src/pages/Onboarding.tsx:153-155 | "Back" at step 2 returns to step 1, keeping name and goal |
| Onboarding.Wizard.FocusTitle | src/pages/Onboarding.tsx:165-182 | at step 3 the focus badge shows the title of the chosen goal, which always exists |
| Onboarding.Wizard.Complete | src/pages/Onboarding.tsx:48-51 | completing leads to `/dashboard` and changes nothing |
| Onboarding.WalkThrough | src/pages/Onboarding.tsx:82-208 | a non-blank name and goal `k` lead to step 3 showing goal `k`, then to `/dashboard` |
| Onboarding.BlankNameStays | src/pages/Onboarding.tsx:82-83 | a blank name keeps the wizard at step 1 |

Every class keeps an invariant, `Valid()`, which every handler preserves:

- Session: the position is off-session at index 0, or on a real prompt of a catalogue
  category; every discovery is valid.
- Tracker: every logged interaction has a non-empty person and description and a known type
  and energy.
- View: the filter is "all" or a category.
- Chat: the conversation has the shape above.
- Wizard:
  - the step is 1 to 3;
  - steps 2 and 3 have a non-blank name;
  - step 3 has a chosen goal;
  - the goal is empty or one of the four ids.

## Left out

- Rendering: JSX, CSS classes, icons (`getTypeIcon` included), colours and gradients, emoji
  decorations, toasts and the "Back to Dashboard" links are not modelled. The model captures
  which state is shown, not how.
- Copying to the clipboard (`copyToClipboard`) is an external effect. The text it copies is
  `DisplayText`.
- `Date.now()`, `new Date()` and `toISOString().split('T')[0]` are left out: ids, dates and
  timestamps are parameters. So the model does not promise that two interactions or
  discoveries logged in the same millisecond get different ids, as the code does not either.
- `Math.random()` is the parameter `pick`. No distribution is modelled.
- The voice button only flips a flag; no audio is recorded by the source either.
- `navigate` is modelled only as the route `Complete` returns. The other pages are not part of
  this model: Landing, Login, Dashboard, Settings, About and the router.
- `ExpressionScripts.DisplayText`, `ExpressionScripts.EditorText` and
  `RelationshipTracker.TypeLabel`/`EnergyColor` carry no `ensures` of their own. What they
  mean is stated by `DisplayTextCases`, `EditorTextCases`, `TypeLabelCases` and
  `EnergyColorCases`.
- The step-3 text `{name}` and the step-2 `Hello {name}!` are display only.
