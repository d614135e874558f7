# Picture-profile wizard: a verified model

This project models the decision logic of a small questionnaire that recommends a
picture profile for a display. It has two parts.

- **Wizard sequencer** (`wizard.dfy`, module `Wizard`). The wizard walks a fixed order of
  seven steps: welcome, content type, viewing time, colour preference, motion preference,
  brightness, results. It collects the answers as it goes. The provider's two state slots
  are the fields of the class `WizardProvider`: the current step and the answers.
  Its operations are methods with `modifies` clauses: `GoToNext`, `GoBack`, `SetAnswer`,
  `ToggleContentType` and `ResetWizard`. The first four are specified by the pure functions
  `NextStep`, `PrevStep`, `Assign` and `Toggled`; `ResetWizard` by the step `Welcome` and
  the constant `DefaultAnswers`. The derived values `canProceed` and
  `stepNumber` are the functions `CanProceed` and `StepNumber` of the current step and answers.
- **Profile resolver** (`profiles.dfy`, module `Profiles`). `GetProfile` is a total decision
  table from the answers to one of eleven catalog profiles. Hybrid rules for multi-selections
  are tried first. Otherwise the primary content type (the first of gaming, sports, movies,
  general that was selected) picks a family. Then the night or comfort variant is chosen
  over the bright or vivid one.
- **Array operations** (`array_ops.dfy`, module `ArrayOps`). These model the JavaScript
  array operations the sequencer uses: `indexOf`, and `filter` with an inequality test.
  Lemmas show that filtering keeps lists free of duplicates and how it acts on multisets.

Design points:

- An unanswered field (`null` in the source) is `Option.None`.
- Steps, content types and answer values are datatypes. Because of that, a step outside the
  step order cannot be represented. So `canProceed`'s `default: return false` branch is
  unreachable, and `indexOf` never returns -1 for a step (`StepNumberIsIndexOf`).
- `setAnswer(key, value)` is generic over the key. It is modelled as one `AnswerUpdate`
  value that pairs a key with a value of that key's type.
- The catalog is looked up by string in the source. Here the keys are the closed enumeration
  `ProfileId`, and `Name` gives each key's string. `CatalogKeys` proves that every key is
  in the `Catalog` map and that each entry is named by its own key.
- `goToNext` does not consult `canProceed`. The continue buttons of the screens are what
  gate it. `NextIgnoresGate` records this: an unanswered content-type screen still advances.
- The content types are a list, as in the source. Toggling removes every occurrence of a
  present type and appends an absent one. The class invariant `Valid()` says the list is
  duplicate-free. The constructor, navigation, toggling and reset preserve it. `SetAnswer`
  preserves it unless it writes a `contentTypes` list that repeats a type, because the
  source does not validate the list a caller passes.
- Toggling a type twice is guaranteed to give back exactly the original list only when the
  type was absent (`ToggleTwiceAbsent`). When it was present, the type ends up at the end
  of the list (`ToggleTwiceMovesToEnd`). On a duplicate-free list the entries are the same
  (`ToggleTwicePresent`).

## Model

| member | source | states |
|---|---|---|
| `ArrayOps.IndexOf` | src/context/WizardContext.tsx:65 | `indexOf` returns -1 exactly when the value is absent; otherwise it returns the first position holding it |
| `ArrayOps.RemoveAll` | src/context/WizardContext.tsx:94 | `filter(t => t !== type)` keeps exactly the other values, and strictly shortens a list that held the value |
| `ArrayOps.RemoveAllNoDup` | src/context/WizardContext.tsx:94 | filtering keeps a list duplicate-free |
| `ArrayOps.RemoveAllAbsent` | src/context/WizardContext.tsx:94 | filtering out a value that is absent gives back the same list |
| `ArrayOps.RemoveAllMultiset` | src/context/WizardContext.tsx:94 | filtering drops every occurrence of the value and keeps every other occurrence |
| `ArrayOps.AppendNoDup` | src/context/WizardContext.tsx:96 | appending an absent value keeps a list duplicate-free |
| `Wizard.StepInOrder` | src/context/WizardContext.tsx:28-36 | every step is listed in `STEP_ORDER` |
| `Wizard.StepNumber` | src/context/WizardContext.tsx:65-66 | the step number is a valid index of `STEP_ORDER` that holds the step; it is 0 exactly at welcome and 6 exactly at results |
| `Wizard.StepNumberIsIndexOf` | src/context/WizardContext.tsx:65-66 | the step number equals `STEP_ORDER.indexOf(currentStep)` |
| `Wizard.StepNumberOf` | src/context/WizardContext.tsx:28-36 | `STEP_ORDER` has no repeated step, so the entry at index i has step number i |
| `Wizard.NextStep` | src/context/WizardContext.tsx:69-74 | below results, the step number grows by one; at results, the step stays |
| `Wizard.PrevStep` | src/context/WizardContext.tsx:76-81 | above welcome, the step number drops by one; at welcome, the step stays |
| `Wizard.CanProceed` | src/context/WizardContext.tsx:107-126 | the gate is open iff the step asks no question (welcome, results) or its field is answered: a non-empty selection or a non-null value |
| `Wizard.Assign` | src/context/WizardContext.tsx:83-88 | `setAnswer` writes the given value to its key and leaves every other field as it was |
| `Wizard.AssignCommutes` | src/context/WizardContext.tsx:87 | writes to two different keys commute |
| `Wizard.AssignOverwrites` | src/context/WizardContext.tsx:87 | a second write to the same key replaces the first |
| `Wizard.AssignOpensGate` | src/context/WizardContext.tsx:107-126 | answering the screen's own question with a non-empty selection or a non-null value opens its gate |
| `Wizard.AssignKeepsOtherGates` | src/context/WizardContext.tsx:107-126 | writing another key leaves the screen's gate unchanged |
| `Wizard.Toggled` | src/context/WizardContext.tsx:90-99 | membership flips for the toggled type and for no other; an absent type is appended at the end, and a present one shortens the list |
| `Wizard.ToggledNoDup` | src/context/WizardContext.tsx:90-99 | toggling keeps the selection duplicate-free |
| `Wizard.ToggledRemovesOne` | src/context/WizardContext.tsx:90-99 | on a duplicate-free selection, toggling a present type removes exactly one entry |
| `Wizard.ToggleTwiceAbsent` | src/context/WizardContext.tsx:90-99 | toggling an absent type twice restores the exact list |
| `Wizard.ToggleTwiceMovesToEnd` | src/context/WizardContext.tsx:90-99 | for any list, toggling a present type twice drops every copy of it and appends one at the end |
| `Wizard.ToggleTwicePresent` | src/context/WizardContext.tsx:90-99 | on a duplicate-free list, toggling a present type twice keeps the same entries (same multiset) |
| `Wizard.FreshWizardGates` | src/context/WizardContext.tsx:51-57 | with the default answers, only the welcome and results screens let the user continue |
| `Wizard.NextIgnoresGate` | src/context/WizardContext.tsx:69-74 | `goToNext` advances from the content-type screen even though its gate is closed |
| `Wizard.AdvanceNumber` | src/context/WizardContext.tsx:69-74 | k calls of `goToNext` move k steps forward, stopping at results |
| `Wizard.BackUndoesNext` | src/context/WizardContext.tsx:69-81 | `goBack` undoes `goToNext` below results, and `goToNext` undoes `goBack` above welcome |
| `Wizard.WizardProvider.constructor` | src/context/WizardContext.tsx:61-63 | a new provider starts at welcome with the default answers |
| `Wizard.WizardProvider.GoToNext` | src/context/WizardContext.tsx:69-74 | moves to `NextStep` of the current step; the answers are unchanged |
| `Wizard.WizardProvider.GoBack` | src/context/WizardContext.tsx:76-81 | moves to `PrevStep` of the current step; the answers are unchanged |
| `Wizard.WizardProvider.SetAnswer` | src/context/WizardContext.tsx:83-88 | the answers become `Assign` of the old answers; the step is unchanged; the invariant holds unless a `contentTypes` list with a repeated type is written |
| `Wizard.WizardProvider.ToggleContentType` | src/context/WizardContext.tsx:90-99 | only the selection changes, to `Toggled` of the old one; the invariant is preserved, and under it toggling a selected type shortens the selection by exactly one |
| `Wizard.WizardProvider.ResetWizard` | src/context/WizardContext.tsx:101-104 | from any state, returns to welcome with the default answers |
| `Profiles.CatalogKeys` | src/data/profiles.ts:14-137 | every key is in the catalog, every catalog key is one of the eleven, keys are distinct, and each entry's name is its key |
| `Profiles.Lookup` | src/data/profiles.ts:14-137 | looking a key up in the catalog succeeds and yields the entry of that name |
| `Profiles.EveryTypeRanked` | src/data/profiles.ts:140 | the priority order lists every content type |
| `Profiles.FirstIncluded` | src/data/profiles.ts:144-148 | the scan stops at the first priority entry that was selected; every earlier entry was not |
| `Profiles.PrimaryContentType` | src/data/profiles.ts:142-150 | gaming if selected; else sports; else movies; else general; the result is selected whenever anything is |
| `Profiles.GetProfile` | src/data/profiles.ts:152-213 | a hybrid profile iff a multi-select rule fires, with gaming and sports first, then sports and movies, then the entertainment hub; otherwise the family of the primary type, with the calm variant iff night-time viewing (general: natural colour) or comfortable brightness |
| `Profiles.MotionIrrelevant` | src/data/profiles.ts:152-158 | the motion preference never changes the result |
| `Profiles.MoviesAndGamingFallThrough` | src/data/profiles.ts:161-205 | a two-type selection of movies and gaming fires no hybrid rule and resolves as gaming alone |
| `Profiles.GetProfileInCatalog` | src/data/profiles.ts:152-213 | the result is always a catalog entry stored under its own name |
| `Profiles.EveryProfileReachable` | src/data/profiles.ts:152-213 | each of the eleven profiles is the result for some answers |
| `Profiles.Scenarios` | src/data/profiles.ts:152-213 | worked examples, one per resolution rule, including the empty selection resolving as general |

## Left out

- The screen and UI components, the results screen's timers, the app shell and layout are
  presentation only. They are not part of this model.
- The React context, `useState` plumbing and the `useWizard` error for use outside a
  provider are not modelled. The provider's state is plain class fields.
- `goToNext` and `goBack` compute from `currentIndex`, which the source captures when the
  component renders, and pass a plain value to `setCurrentStep`. Two calls within one render
  therefore move the source only one step. The model, including `AdvanceNumber`, assumes a
  re-render between calls; `setAnswer` and `toggleContentType` pass updater functions and
  are not affected.
- Each profile's list of setting icons and labels is static display data and is not modelled.
  Names and descriptions are kept.
- The `performance-optimizer/` snippets are not used by the wizard and are not part of this
  model.
- Wizard.WizardProvider.SetAnswer: the duplicate-free invariant is not promised after a
  write of a `contentTypes` list with a repeated type, because the source accepts any list
  there.
