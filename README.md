# DVNC agent: classifiers, canned answers and session

A Dafny model of the non-rendering part of the `DVNCAgent` class in
`script.js`, the front end of the DVNC.AI "Leonardo" assistant. The model has
three parts.

- **Topic classification** (`classifier.dfy`, on top of `text.dfy`). This is
  how a message is mapped to one of the response types `hydraulic`,
  `biomechanical`, `biomedical`, `structural` and `general`. There are two
  rules:
  - A typed message is trimmed and lower-cased. Then the four keyword lists
    are searched in their insertion order, and the first topic with a
    keyword that is a substring wins.
  - The text of a prompt card goes through a narrower, case-sensitive
    if/else chain.
  The keyword search is a loop method, `ClassifyMessage`, proved equal to
  the function `ClassifyText`. Both rules are characterised by first-hit
  lemmas, and the one-way difference between them is proved.
- **Canned answers** (`responses.dfy`). This is the response object and the
  lookup `responses[type] || responses.general`. Every key yields an answer,
  and a key without an entry yields the general one.
- **Citation chips** (`citations.dfy`). Two or three of the four codices,
  in random order. The random sort and the random count are a parameter
  `Draw`. The lemmas prove two things about the chosen chips: every draw
  gives 2 or 3 distinct sources, and every such choice can be drawn.
- **The session** (`session.dfy`). This is `class Agent`. Its fields are:
  - the agent's state: the conversation flag, the transparency flag, the
    memory items and the context items;
  - what the agent writes on the page: the message box, the message thread,
    the reference count, the visibility of the panels, the labels in the
    reasoning panel, and the label of the transparency button.

  The class invariant `Valid` holds between operations. It says:
  - the thread alternates a question and its answer;
  - each answer is the canned entry for the topic that one of the two
    classifiers gives the question before it;
  - there is one memory item per answer;
  - while a conversation is active, the count shown is the number of memory
    items plus four.

  A turn runs synchronously: the user entry, then the reasoning steps if
  they are switched on, then the answer.

`script.js` is the only file of the system modelled. It has no backend
call, no health probe, no API base setting and no markup formatting of
messages: a message is plain `textContent`, and an answer is always one of
the canned texts. The model follows the code, so a turn always ends with a
canned answer.

## Model

| member | source | states |
|---|---|---|
| Text.Trim | script.js:217 | `trim` removes whitespace from both ends only. The result is the input minus a whitespace-only prefix and suffix. It is empty exactly when the input is all whitespace, and otherwise starts and ends with a non-space. |
| Text.IncludesIff | script.js:235 | The recursive `includes` holds exactly when the word occurs at some index of the text. |
| Text.IncludesTransitive | script.js:192 | A text that contains `u` contains every substring of `u`. For example, a prompt with "water pump" contains "water". |
| Text.Lower | script.js:235 | `toLowerCase` never shortens the text and leaves no upper-case ASCII letter. |
| Text.LowerAppend | script.js:235 | Lower-casing a concatenation is the concatenation of the lower-cased parts. |
| Text.LowerPlain | script.js:228-231 | Lower-case letters and spaces are unchanged by `toLowerCase`. |
| Text.IncludesLower | script.js:235 | A word that lower-casing leaves alone and that occurs in a text still occurs in the lower-cased text. |
| Classifier.FirstMatchAt | script.js:234-239 | The entry that wins the search is the first one with a hit. |
| Classifier.FirstMatchNone | script.js:226-239 | With no hit in any entry, the result is the `general` default. |
| Classifier.ClassifyMessage | script.js:226-239 | The loop over the keyword entries, with `break` at the first entry with a hit, returns exactly `ClassifyText` of the message. |
| Classifier.ClassifyTextChain | script.js:227-239 | The search is the chain hydraulic, then biomechanical, then biomedical, then structural, then `general`, each tested against the lower-cased message. |
| Classifier.ClassifyTextSpec | script.js:226-239 | Both directions: a typed message is classified as `t` if and only if (a) `t` is `general` or has a keyword in the lower-cased message, and (b) no earlier topic has one. |
| Classifier.ClassifyTextAtMost | script.js:234-239 | A keyword of `t` in the message means the result is `t` or a topic tried before it. |
| Classifier.ClassifyPromptSpec | script.js:191-200 | Both directions: a prompt card is classified as `t` if and only if (a) `t` is `general` or one of its prompt substrings occurs, case-sensitively, in the text as given, and (b) no earlier topic has one. |
| Classifier.KeywordSurvivesLower | script.js:228-235 | A keyword found in the raw text is still found after lower-casing, since every keyword is lower-case ASCII. |
| Classifier.KeywordPlain | script.js:228-231 | Every keyword consists of lower-case letters only. |
| Classifier.PromptWordHasKeyword | script.js:192-231 | Each prompt substring contains a keyword of the same topic. So a prompt-card hit is also a hit for the keyword search. |
| Classifier.TextNeverBehindPrompt | script.js:191-239 | For every text, the keyword search gives a topic no later in the priority order than the prompt-card chain does. The two rules differ only in that direction. |
| Classifier.MissingCharExcludes | script.js:235 | A word with a character that the text lacks does not occur in it. |
| Classifier.NoneIncluded | script.js:235 | Words that each miss a character of the text do not occur in it. |
| Classifier.CapitalisedLower | script.js:235 | A capital ASCII letter followed by lower-case letters loses only its capital. |
| Classifier.WaterPumpTyped | script.js:226-239 | "Water Pump" typed is `hydraulic`. |
| Classifier.WaterPumpCard | script.js:191-200 | "Water Pump" on a prompt card is `general`, because the chain is case-sensitive. |
| Classifier.MuscleAndHeartTyped | script.js:226-239 | "muscle and heart" typed is `biomechanical`. It has a biomedical keyword too, but the earlier topic wins. |
| Classifier.MuscleAndHeartNoHydraulic | script.js:228 | "muscle and heart" has no hydraulic keyword. |
| Classifier.MuscleAndHeartHitsBiomechanical | script.js:229 | "muscle and heart" has the biomechanical keyword "muscle". |
| Classifier.HelloTyped | script.js:226-239 | "hello" has no keyword and is `general`. |
| Classifier.PortablePumpTyped | script.js:226-239 | "I need a portable water pump" typed is `hydraulic`. |
| Responses.ResponseFor | script.js:332 | The lookup is total and never empty. Each of the five response types gets its own canned answer, and any other key gets the general answer. |
| Responses.PortablePumpAnswer | script.js:226-241 | A typed message about a portable water pump is answered with the hydraulic text. |
| Citations.ShuffleFacts | script.js:299-308 | A random sort of the four sources holds each of them exactly once. |
| Citations.Select | script.js:299-309 | The chips kept are 2 or 3 distinct sources out of the four. There are 2 exactly when the random number is below 0.5. |
| Citations.Without | script.js:299-304 | The sources left out of a selection are exactly the ones not chosen, without repeats. |
| Citations.ComplementRearranges | script.js:307-309 | A selection followed by the sources it leaves out is a rearrangement of the four. |
| Citations.CompletedSelectionIsShuffle | script.js:307-308 | Any valid selection, completed by the other sources, is a possible sort order. |
| Citations.SelectionReachable | script.js:306-309 | Every choice of 2 or 3 distinct sources, in any order, is the outcome of some draw. |
| Session.AppendEntry | script.js:221 | Appending an entry that fits its position keeps the thread alternating question and answer. |
| Session.AnswersAreCanned | script.js:332 | With the agent's own table, every answer in the thread is the canned text for the topic of its question. |
| Session.Agent.constructor | script.js:4-29 | A new agent is inactive, with transparency off, no memory or context items, an empty thread and box, and the canned answers loaded. |
| Session.Agent.ToggleTransparency | script.js:85-89 | Flips `showThinkingProcess` and relabels the button "Hide Process" or "Show Process" after the new value. Toggling twice restores the flag. |
| Session.Agent.UpdateSourcesCount | script.js:395-398 | The count shown is the number of memory items plus four. |
| Session.Agent.StartConversation | script.js:205-214 | Moves from inactive to active and shows the conversation panel, with a count of four. When already active it changes nothing. |
| Session.Agent.AddMessage | script.js:244-293 | Appends one thread entry with the given text and sender. Only an agent entry carries the chips of the draw. |
| Session.Agent.ShowThinkingSteps | script.js:346-364 | Shows the reasoning panel with exactly the five labels, in order (their emoji decoded, as listed under Left out). |
| Session.Agent.ProcessAgentResponse | script.js:326-344 | The answer is the table's entry for the response type, with its chips. Exactly one memory item is added, the count is rewritten as memory items plus four, and the panel is hidden. The five labels are shown only when transparency is on, and otherwise the panel's labels are untouched. |
| Session.Agent.SendMessage | script.js:216-242 | If the trimmed box is blank, nothing changes. Otherwise the conversation starts, the trimmed text is appended as the question before the answer, the box is cleared, and the answer is the canned text for the keyword search's topic. |
| Session.Agent.SubmitMessage | script.js:220-241 | A non-blank message is handled as described for SendMessage, and the class invariant is kept. |
| Session.Agent.HandlePromptCard | script.js:186-203 | The card text, untrimmed and not lower-cased, becomes the question. The answer is the canned text for the prompt chain's topic. The message box is left alone. |
| Session.Agent.ShowContextBar | script.js:369-393 | Shows the context bar and appends exactly the three fixed manuscripts on every call, without removing duplicates. |
| Session.Agent.ResetToHome | script.js:400-412 | Back to the home screen: inactive, with empty thread, box, memory and context, and the context bar hidden. `showThinkingProcess` and the count last written are kept. A second reset changes nothing. |

Three properties follow from the contracts above without lemmas of their
own:
- After `k` answers with no reset, the count is `4 + k`. This follows from
  `Valid`: the count is memory items plus four, with one memory item per
  answer.
- Toggling twice restores the flag. This follows from the two
  `ToggleTransparency` postconditions.
- Resetting twice is the same as resetting once. This follows from
  `ResetToHome` ensuring `AtHome` and leaving an agent that is already at
  home unchanged.

## Left out

- The DOM, for these reasons:
  - Element creation, SVG and `innerHTML` markup, scrolling, and the textarea's auto-resize are view code. A message's avatar and the chip icons are not modelled either.
  - Element visibility is reduced to flags. The welcome section, conversation area, new-chat button and sources panel are one flag, `conversationShown`, because they are always switched together.
  - The count is the number written, not the text "`<n>` references active".
- The initial page (the HTML is not part of this model). The constructor assumes the home screen, an empty box, and no count or button label written yet.
- The canvas particle animation (`initializeCanvas`, `resizeCanvas`, `animateBackground`). It is floating-point rendering driven by animation frames.
- `initializeElements` and `attachEventListeners`. They only wire buttons and keys to the modelled operations. The `data-prompt` attribute a card passes is taken to be present.
- Timing, for these reasons:
  - The 400 ms step delays and the 1500 ms answer delay are event-loop scheduling. A turn is modelled as one synchronous step.
  - So the model does not capture a reset, a toggle or a second send that lands while an answer is pending, which the source does not guard against.
  - Each reasoning label appears when the loop reaches it. Their gradual appearance is only the loop's order.
- Randomness. The comparator sort and `Math.random()` count are the parameter `Draw`: a rearrangement of the four sources and a number in [0, 1). A comparator that is not consistent can still only rearrange the array, which is all `Draw` assumes.
- The clock. The `toLocaleTimeString()` text inside a memory item is the parameter `time`.
- `toLowerCase`: only characters whose lower-case form contains an ASCII letter are lowered (A-Z, KELVIN SIGN, CAPITAL I WITH DOT ABOVE). Other characters are kept as they are. That cannot change whether an ASCII keyword matches, but the lowered text is not exact for other scripts.
- The reasoning labels' leading emoji. In `script.js` the labels are stored as UTF-8 that was encoded twice, and the gear emoji has lost its last byte. The model decodes them to the intended emoji (U+1F4D6, U+1F52C, U+2699 U+FE0F, U+1F3A8, U+1F4A1). The label words are exact.
- Strings are sequences of code points, not UTF-16 code units. This makes no difference to any modelled result.
- Keys of the response object inherited from `Object.prototype`, such as `constructor`, are not modelled. A card whose chain gave such a key is impossible anyway, since both classifiers only give the five response types.
