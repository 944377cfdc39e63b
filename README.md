# Vic Akosile microsite: chat widget, counter formatting and page flags

The repository is one client-rendered marketing page, `app/page.tsx`. This
project models the three parts of it that carry logic:

- **The chat widget (`VicBot`)** — module `VicBot`, class `VicBot.Widget`
  with the component's three state variables: the transcript `messages`, the
  text field `input` and the flag `isLoading`. The submit handler is split
  around its one network request. `BeginSubmit` runs the guard, appends the
  visitor's message, clears the field, starts loading and returns the prompt
  it would send. `Complete(outcome)` takes the request's abstract `Outcome`,
  appends exactly one bot message (the model's text, the "couldn't process"
  fallback or the connection fallback) and ends loading, as the `finally`
  block does. `Submit(outcome)` is the whole handler. The object invariant
  (`WellFormed`) says that the transcript is the greeting followed by
  alternating visitor and bot messages, and that it ends on an unanswered
  visitor message exactly while a request is loading.
- **The submit guard's `input.trim()`** — module `JsString`: ECMAScript's
  `String.prototype.trim` over its WhiteSpace and LineTerminator code points,
  proved to return the empty string exactly when the input is all white
  space.
- **The impact counter (`AnimatedCounter`)** — module `CounterFormat`: the
  unit chosen from the label (`$`, then `+`, then `x`, then `%`), the display
  formatting with and without reduced motion, `Math.round`, and the
  per-frame rendering of the running value. The three number-to-text
  conversions (`String(v)`, `toLocaleString()`, `toFixed(1)`) are fields of a
  `Renderer` value and are left uninterpreted.
- **The page (`LivingCaseStudy`)** — module `CaseStudyPage`, class
  `CaseStudyPage.Page` with `hiringManagerName`, `isBotOpen` and the mounted
  widget. The `exec` query value sets the name. The banner and the
  personalized section are both gated on that name. The launcher mounts a
  fresh widget and unmounts it again.

The model follows the code in three places a reader may not expect:

- The visitor message and the prompt carry the raw, untrimmed input
  (app/page.tsx:135, 142). Only the guard trims.
- Dismissing the banner clears the one name that gates both the banner and
  the personalized section (app/page.tsx:210, 213, 234), so it hides both.
- With animation on, the "Exec Community+" counter does not end on "30,000+"
  (see Findings).

## Model

| member | source | states |
|---|---|---|
| JsString.TrimStart | app/page.tsx:133 | the leading part of `trim`: the result is a suffix of the input, everything dropped is white space, and the result is empty or starts with a non-space |
| JsString.TrimEnd | app/page.tsx:133 | the trailing part of `trim`: the result is a prefix, everything dropped is white space, and the result is empty or ends with a non-space |
| JsString.Trim | app/page.tsx:133 | `input.trim()` is empty exactly when the input is all white space; it is the slice of the input left between a white-space prefix and a white-space suffix, and when non-empty it neither starts nor ends with white space |
| JsString.TrimEmptyExactlyWhenBlank | app/page.tsx:133 | trimming the leading and then the trailing white space leaves nothing exactly when the input is all white space |
| VicBot.Accepts | app/page.tsx:133 | a submit goes ahead exactly when nothing is loading and the input holds at least one character that is not white space |
| VicBot.AcceptsIsTrimGuard | app/page.tsx:133 | a submit goes ahead exactly when `input.trim()` is non-empty and nothing is loading (the negation of the early-return test) |
| VicBot.Prompt | app/page.tsx:142 | the prompt template: its length is the sum of its four parts, it starts with the context and ends with "\n\nAnswer:" |
| VicBot.PromptLayout | app/page.tsx:140-142 | the prompt is the context, then "\n\nQuestion: ", then the raw question, then "\n\nAnswer:", at those exact offsets, so the question sits after the context and before the answer cue |
| VicBot.PromptRoundTrip | app/page.tsx:142 | the question can always be read back out of the prompt built from it |
| VicBot.QuestionOfSound | app/page.tsx:142 | any string from which a question is read back is exactly the prompt of that question |
| VicBot.BotReply | app/page.tsx:158-165 | the bot's reply is never empty: the candidate text when present and non-empty (the `\|\|` treats "" as missing), the "couldn't process" fallback for an ok response without usable text, the connection fallback for a non-ok status or any thrown error |
| VicBot.AppendTurn | app/page.tsx:136-162 | appending the message whose turn it is (visitor while idle, bot while loading) keeps the transcript well formed and flips the loading state |
| VicBot.Widget.constructor | app/page.tsx:118-122 | the widget mounts with exactly the greeting, an empty field and nothing loading |
| VicBot.Widget.Edit | app/page.tsx:175 | the field's change handler replaces the input text |
| VicBot.Widget.BeginSubmit | app/page.tsx:131-142 | refused submits change nothing; an accepted one appends one visitor message with the untrimmed input, clears the field, sets loading, keeps earlier messages and returns the prompt for that input |
| VicBot.Widget.Complete | app/page.tsx:144-168 | exactly one bot message with the reply for the outcome is appended to the unchanged earlier messages, and loading ends whatever the outcome |
| VicBot.Widget.Submit | app/page.tsx:131-169 | a whole submit: refused ones change nothing; an accepted one grows the transcript by the visitor message and then the bot reply, clears the field and ends idle |
| CounterFormat.UnitOf | app/page.tsx:62-75 | the label tests `$`, `+`, `x`, `%` in that order and the first that matches picks the unit; with none, no unit |
| CounterFormat.WithUnit | app/page.tsx:70-74 | the unit written around the number text: "$" before and "M" after for `$`, a trailing "+", "x" or "%" for those units, the bare text for none |
| CounterFormat.ReducedMotionDigits | app/page.tsx:63-68 | the reduced-motion number text for each unit: `String(v)` for `$` and `%`, `toLocaleString()` for `+` and for no unit, `toFixed(1)` for `x` |
| CounterFormat.FormatDisplayValue | app/page.tsx:62-75 | `formatDisplayValue`: the label's unit wrapped around the reduced-motion number text or, when animating, around the current display text, which can be read back out of the result |
| CounterFormat.WithUnitRoundTrip | app/page.tsx:70-74 | the unit wrapped around the number ("$…M" or a one-character suffix) never hides it: the number can be read back |
| CounterFormat.Round | app/page.tsx:54 | `Math.round` gives the integer within half of the value, halves rounded up |
| CounterFormat.RoundIntegral | app/page.tsx:54 | a whole number rounds to itself |
| CounterFormat.FrameText | app/page.tsx:50-56 | `onUpdate` as written: one decimal exactly when the label contains 'x', else the rounded value with grouped digits |
| CounterFormat.FrameTextIntended | app/page.tsx:50-56 | `onUpdate` as evidently intended: one decimal exactly when the label's unit is 'x', else the rounded value with grouped digits; it agrees with the as-written rendering for every label that does not contain both 'x' and one of `$` or `+` |
| CounterFormat.ExecCommunityFrames | app/page.tsx:51-55 | the "Exec Community+" label picks the "+" unit, yet its frames are rendered with one decimal because "Exec" contains an 'x' |
| CounterFormat.ExecCommunityFinalFrameMismatch | app/page.tsx:51-55 | as written, the 30,000 counter's last animated frame shows "30000.0+" while its reduced-motion display is "30,000+" |
| CounterFormat.IntendedFinalFrameMatchesReducedMotion | app/page.tsx:36-75 | with one decimal used exactly for the "x" unit, the last frame shows what the reduced-motion path shows, for every label |
| CounterFormat.CommunityCounterReducedMotion | app/page.tsx:206 | the "Exec Community+" counter for 30000 shows "30,000+" without animation |
| CounterFormat.NpsCounterReducedMotion | app/page.tsx:206 | the "Average Summit NPS" counter for 94 shows "94" without animation |
| CounterFormat.PipelineCounterReducedMotion | app/page.tsx:206 | the "$42M Pipeline Influenced" counter for 42 shows "$42M" without animation |
| CounterFormat.EngagementCounterReducedMotion | app/page.tsx:206 | the "C-Suite Engagementx" counter for 3.8 shows "3.8x" without animation |
| CounterFormat.SatisfactionCounterReducedMotion | app/page.tsx:206 | the "Learner Satisfaction%" counter for 97 shows "97%" without animation |
| CaseStudyPage.Addressee | app/page.tsx:210 | the personalized parts address the stored name exactly when it is non-empty |
| CaseStudyPage.BannerText | app/page.tsx:212 | the banner's link text: "A personal message for ", then the name, then exactly " from Vic." |
| CaseStudyPage.SectionHeading | app/page.tsx:183 | the personalized section's heading: "A Personal Message for " followed by the name |
| CaseStudyPage.Banner | app/page.tsx:210-215 | the banner renders exactly when the name is non-empty, with that name's link text |
| CaseStudyPage.PersonalizedSection | app/page.tsx:234 | the personalized section renders exactly when the name is non-empty, with that name's heading |
| CaseStudyPage.NameAfterQuery | app/page.tsx:195-200 | a present, non-empty `exec` value becomes the name; an absent or empty one leaves the name as it was |
| CaseStudyPage.PersonalizationFromQuery | app/page.tsx:195-234 | after load, the banner and the personalized section both render, addressed to the `exec` value, exactly when that value is present and non-empty |
| CaseStudyPage.BannerIffSection | app/page.tsx:210-234 | the banner shows exactly when the personalized section shows |
| CaseStudyPage.Page.constructor | app/page.tsx:192-193 | the page starts with no name and the widget closed |
| CaseStudyPage.Page.ReadQuery | app/page.tsx:195-200 | the mount effect sets the name as NameAfterQuery says |
| CaseStudyPage.Page.DismissBanner | app/page.tsx:213 | the close button clears the name, which hides the banner and the personalized section alike |
| CaseStudyPage.Page.ToggleBot | app/page.tsx:254-255 | the launcher flips the open flag; opening mounts a fresh widget holding only the greeting, closing unmounts it |
| CaseStudyPage.Page.CloseBot | app/page.tsx:173-255 | the widget's close button sets the flag false and unmounts the widget |

## Findings

| source | as written | input that shows it | evidently intended | confidence | as-written member | corrected member |
|---|---|---|---|---|---|---|
| app/page.tsx:51-55 | each animation frame uses one decimal whenever the label contains an 'x' anywhere, while formatDisplayValue tests '+' before 'x' | label "Exec Community+" (app/page.tsx:206), value 30000: the last frame reads "30000.0+", the reduced-motion display "30,000+" | one decimal exactly when the label's unit is 'x', so the animation ends on the reduced-motion display | medium, not executed | CounterFormat.ExecCommunityFinalFrameMismatch | CounterFormat.IntendedFinalFrameMatchesReducedMotion |

`CounterFormat.FrameText` is the frame rendering as written and
`CounterFormat.FrameTextIntended` the corrected one. The corrected property
also needs two side conditions, which the page's data meets. A counter
without the 'x' unit needs a whole target, because its frames are rounded.
For the "$" and "%" units, the reduced-motion path prints `String(v)` where a
frame prints grouped digits, so the two renderings must agree on the target
(they do for 42 and 97).

## Left out

- The network call (app/page.tsx:144-160): `fetch`, the endpoint URL and key, the JSON body and `response.json()` are replaced by the `Outcome` parameter of `Complete` and `Submit`. `HttpNotOk` is a non-ok status, `Thrown` is a rejected fetch or an unparsable body, and `Ok` carries the first candidate's text if the optional chain reaches a string.
- VicBot.BotReply: a candidate `text` that is present but not a string (a number or an object) is not modelled; the model's `Ok` carries an optional string.
- The console diagnostic in the catch block (app/page.tsx:164) is output only and is not modelled.
- React's asynchronous state updates and stale closures are not modelled: a submit is two sequential steps on one object. The disabled field and button (app/page.tsx:175) are what stop a second submit while loading; `BeginSubmit` refuses it anyway.
- VicBot.Widget.Edit: does not require the field to be enabled; the disabled attribute is DOM behaviour outside the component.
- A request still in flight when the widget is closed completes against an unmounted component; `CloseBot` drops the widget and the model does not follow that request.
- Scroll-to-bottom, the in-view trigger, framer-motion animation, timing, easing and `AnimatedSection` are cosmetic and not modelled. The animation is represented only by the frame values passed to `FrameText`.
- Number rendering (`String(v)`, `toLocaleString()`, `toFixed(1)`) is left uninterpreted as the `Renderer` fields. The counter lemmas state the JavaScript renderings they rely on as preconditions.
- The label-stripping regular expression (app/page.tsx:85) is not modelled; it only affects the caption under the number.
- `String.prototype.trim` works on UTF-16 code units and the model on code points. Every white space code point lies in the Basic Multilingual Plane, so the result is the same.
- The static copy, logos and testimonials, the `Suspense` wrapper and `useSearchParams` are not modelled. The `exec` value is an optional string parameter of `ReadQuery`.
