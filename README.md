# Seed of Purity — the session core, in Dafny

"Seed of Purity" is a single-page greeting: the visitor types a name, plants
it as a seed that grows into a flower, clicks the five petals to read
affirmations (three of them addressed to the visitor by name), and can click
the flower centre three times for a bonus message. All of it lives in one
browser script, `script.js`. This project models the part of that script that
is logic rather than animation:

- `name_input.dfy` (module `NameInput`): the trimming of the name field
  (`String.prototype.trim`, with the exact ECMAScript set of whitespace and
  line-terminator characters), the emptiness check, and `sanitizeName` — the
  first 20 characters with every `<` and `>` removed.
- `messages.dfy` (module `MessageCatalog`): the five petal messages,
  `getPersonalizedMessage`, and the text choice of `showSecretMessage`. Each
  personalised text is stated against one rule, `AfterAddress`: the name, a
  comma, then the catalogue text with its first letter lower-cased unless it
  opens with the pronoun "I". Each personalised text and its catalogue text
  are built from one shared remainder constant (the text after the opening
  word), so they agree after the opening word by construction. What the
  verifier checks is that each opening word follows `AfterAddress`: "You "
  becomes "you " and "I " is kept.
- `session.dfy` (module `GardenSession`): the three module-level variables
  `userName`, `firstPetalClicked` and `centerClickCount` as the fields of a
  `Session` class, with `plant`, `handlePetalClick` and `handleCenterClick` as
  methods. Output fields record what the handlers do to the page: the message
  box text, and how many times `hidePrompt`, `showSecretMessage`,
  `shakeInput` and `transitionToGarden` ran. Two ghost counters record how
  many petal and centre clicks happened. The invariant `Valid()` ties the
  fields to those counters. The prompt is hidden exactly once, after the
  first petal click. After n centre clicks the counter is n mod 3 and the
  bonus message has been shown n / 3 times. The planted name is always at
  most 20 characters long and never holds an angle bracket.

Four small client methods (`BlankWalkthrough`, `ReplantWalkthrough`,
`PetalWalkthrough`, `CenterWalkthrough`) use only the contracts to follow a
visit. A blank name is refused. `"  Amy  "` is planted as `"Amy"`. Petal 1 is
never personalised. Only the first petal click hides the prompt. Two centre
clicks show nothing, and the third shows the bonus message.

Two behaviours of the code may be unexpected. The model follows the code in
both:

- One might expect the name to be set only once. `plant` does not enforce
  this: while the card fades out (script.js:103-121) the button can be
  pressed again, and every accepted submission overwrites `userName`. `Session.Plant` may run any
  number of times, and `ReplantWalkthrough` replants.
- One might expect every accepted name to be non-empty. In the code the
  emptiness check runs on the trimmed input before sanitising
  (script.js:76-82). So an input such as `"<>"` is accepted and plants the empty name. After that the
  messages are the generic ones. `SanitizeEmptyIff` states exactly when this
  happens.

## Model

| member | source | states |
|---|---|---|
| `NameInput.TrimStart` | script.js:73 | the result is a suffix of the input, everything dropped is whitespace, and the result does not start with whitespace |
| `NameInput.TrimEnd` | script.js:73 | the result is a prefix of the input, everything dropped is whitespace, and the result does not end with whitespace |
| `NameInput.Trim` | script.js:73-76 | the trimmed name is empty exactly when every character of the input is whitespace; otherwise it neither starts nor ends with whitespace |
| `NameInput.TrimRemovesOnlyEdges` | script.js:73 | the trimmed name is a contiguous slice of the input, and only whitespace lies before and after it |
| `NameInput.TrimIdempotent` | script.js:73 | trimming a trimmed name changes nothing |
| `NameInput.StripAngleBrackets` | script.js:90 | the result holds no `<` or `>`, holds only characters of the input, is no longer than it, and equals it when it had no angle bracket |
| `NameInput.StripAppend` | script.js:90 | removing angle brackets distributes over concatenation, so the kept characters stay in their order |
| `NameInput.StripMultiset` | script.js:90 | every character other than `<` and `>` is kept as often as it occurs; all `<` and `>` are removed |
| `NameInput.StripEmptyIff` | script.js:90 | removing angle brackets leaves nothing exactly when every character was `<` or `>` |
| `NameInput.NamePrefix` | script.js:90 | `slice(0, 20)` is a prefix of the input, of length min(20, length) |
| `NameInput.SanitizeName` | script.js:88-91 | the sanitised name is at most 20 characters long, holds no `<` or `>`, and holds only characters of the input |
| `NameInput.SanitizeIdempotent` | script.js:88-91 | sanitising twice equals sanitising once |
| `NameInput.SanitizeFixedIff` | script.js:88-91 | the sanitiser leaves a name unchanged exactly when it is at most 20 characters long and has no angle bracket |
| `NameInput.SanitizeEmptyIff` | script.js:76-91 | the sanitised name is empty exactly when the first min(20, length) characters are all angle brackets, so `"<>"` passes the emptiness check and still plants the empty name |
| `NameInput.SanitizeIgnoresTail` | script.js:90 | characters after the twentieth never affect the sanitised name |
| `MessageCatalog.AddressForms` | script.js:31-37 | the catalogue texts of petals 0, 2 and 4 and the bonus text read after an address as "you …", "I …", "I …" and "you …" |
| `MessageCatalog.GetPersonalizedMessage` | script.js:170-185 | petals 1 and 3, and every petal while the name is empty, show the catalogue text verbatim; petals 0, 2 and 4 with a name show the name, ", " and the catalogue text with "You" lower-cased and "I" kept |
| `MessageCatalog.MessageIsGenericIff` | script.js:171-184 | a petal shows its catalogue text verbatim if and only if it does not personalise (index 1 or 3, or empty name) |
| `MessageCatalog.MessageKeepsClause` | script.js:171-182 | every petal message, whatever the name, ends with its catalogue text from the second character on |
| `MessageCatalog.MessageOpensWithName` | script.js:174-181 | a personalised petal message opens with the name followed by ", " |
| `MessageCatalog.SecretMessage` | script.js:284-286 | the bonus text is the generic one with no name; with a name it is the name, ", " and the generic text with "You" lower-cased |
| `MessageCatalog.SecretIsGenericIff` | script.js:284-286 | the bonus text is the generic one if and only if the name is empty, and always ends with the generic text from its second character on |
| `GardenSession.Session.constructor` | script.js:26-28 | the session starts with the empty name, the latch clear, the counter at 0 and no effects |
| `GardenSession.Session.Plant` | script.js:72-86 | an all-whitespace input only shakes the field and leaves the name unchanged; any other input sets the name to the sanitised trimmed input and starts one garden transition; the name invariant is kept |
| `GardenSession.Session.PetalClick` | script.js:143-159 | the prompt is hidden if and only if this is the first petal click; afterwards the latch is set; the message box shows the petal's personalised message |
| `GardenSession.Session.CenterClick` | script.js:271-286 | the counter stays in [0, 3) and equals the number of centre clicks mod 3; the bonus message is shown exactly on every third click, with the text chosen for the current name; otherwise the message box is unchanged |

## Left out

- DOM writes (`classList`, `style`, `textContent`, `aria-invalid`, element creation and removal, `getBoundingClientRect`) are not modelled. They are browser effects. Only the message box text and the counts of the effects are kept.
- Timer sequencing is not modelled: the 100 ms display delay, the 400 ms card fade, the 100 ms and 3500 ms seed and stem steps, the 300 ms prompt fade, the 500 ms shake, the glow reset and the 10 ms pulse restart. The model writes the message text at the moment of the click. In the source, the bonus text reads `userName` when its 100 ms timer fires, not at the click.
- The scene phases (entry, planting, growing) are not modelled. They exist only as timer chains and CSS classes, with no stored phase variable. `gardenTransitions` counts how often the chain was started.
- `createParticles` is left out. It uses `Math.random` and the window width.
- `createSparkle` and `animateSparkle` are left out. They use floating-point trigonometry and an opacity loop driven by `requestAnimationFrame`.
- `pulsateCenter`, the injected keyframes, the leaf sway, font preloading, the `MutationObserver`, the global `error` listener, the `hardwareConcurrency` check and the console banners are left out. They are browser APIs or I/O and have no checkable result.
- Event wiring is not modelled. Click and Enter or Space on petal i all call `handlePetalClick(i)`, and the button and the Enter key both call `plant`. The methods stand for those calls. The field value that `plant` reads is the parameter `raw`.
- The starting text of the message box comes from the page markup, which is not part of this model. The model starts with the empty text.
- NameInput.NamePrefix and NameInput.SanitizeName: a string is a sequence of Unicode characters, whereas JavaScript's `slice(0, 20)` counts UTF-16 code units. So the model does not capture that a character outside the Basic Multilingual Plane (an emoji, say) counts twice in JavaScript and can be cut in half at the twentieth unit.
- GardenSession.Session.PetalClick: requires a petal index below 5, as the page has five petals. The source has no such guard. An index of 5 or more would empty the message box, because `getPersonalizedMessage` returns `undefined` and assigning that to `textContent` clears it. It would also throw in `createSparkle`, so `pulsateCenter` would not run. No caller in the script passes one.
