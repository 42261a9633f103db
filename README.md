# squire_web landing page: a Dafny model of its logic

The squire_web landing page tells a scroll-driven story. A carousel shows the catalogue
of tools. The tool nearest the carousel's centre is described in a panel, and its
"Add to workflow" button adds the tool to the workflow. A running total of minutes saved
is kept, and a banner shows it as "N sec", "N min" or "N hr(s)". A recording overlay
counts seconds while the story is in its `click` phase.

This project models the logic behind that page and proves its properties:

- **Duration parser** (`parseTimeString`, modules `Duration` and `DurationFacts`):
  - The input is trimmed and lower-cased.
  - The unanchored pattern `([\d.]+)\s*(sec|second|seconds|min|minute|minutes|hr|hrs|hour|hours)?` is modelled exactly. That includes the alternation picking the first alternative that matches, so "seconds" is captured as "sec" and "hours" as "hour".
  - `parseFloat` on the captured run is modelled as well, including the NaN that a lone dot produces.
  - Then comes the unit switch.
- **Tool catalogue** (`ToolCatalogue`): the eleven tools and `Array.find` by id.
- **Stores** (`TimeStore`, `ToolStore`): the two zustand stores, as classes whose setters change only their own field. `setTime` adds to the total.
- **Scroll phase** (`ScrollPhase`): the threshold chain from scroll progress to `intro | draw | click | merge | done`, and the hook's state.
- **Carousel** (`ToolCarousel`):
  - The layout constants and the tripled render list.
  - The wrap-around of the scroll offset.
  - The first-minimum search for the centred tool.
  - `scrollToItem` and its programmatic-scroll flag.
- **Description panel** (`ToolSelection`):
  - Previous/next cycling of the function index, with JavaScript's truncating `%`.
  - The `functions?.[index]` lookup.
  - The guarded "Add to workflow" handler and the `clicked` flag.
- **Banner** (`TimeSave`): `formatTime`, the font size, and the phase-driven `showSaved` / `isGlitching` / `displayText` state.
- **Overlay** (`DrawOverlay`): the phase-driven `seconds` / `visible` state and the `mm:ss` label.
- **Page root** (`Page`): `handleClick`, which appends a collected item and adds the tool's parsed time through the store.

How the model treats the runtime:

- Timers and intervals become methods for the events they fire, such as `Tick`, `StopFired`, `HideFired` and `ClearTimerFired`.
- React effects become methods that run when their dependencies change.
- Element geometry is supplied as input: the container's centre and each item's centre.
- Randomness is a parameter: the id suffix and the glitch digits.
- Numbers are exact `real`s.

**What the page code actually does, where a reader might expect otherwise:**

- The click handler adds the tool-level `time` of the clicked tool. It does not add the time of the function shown in the panel. Adding Slack ("3 min") and then Gmail ("2 min") therefore gives 5 minutes (`Page.SlackThenGmail`), not 1 + 2 = 3 from the two function times.
- `handleClick` is memoised without `time` among its dependencies, so its closure keeps the total of the first render, which is 0.
- Because `setTime` adds to the total, the `setTime(time + addedTime)` call adds exactly the parsed time. The model makes the captured total explicit: `ToolStore.ClickHandler` carries it, and `Page.Home.HandleClick` adds `capturedTime + parsed`. A handler with a non-zero captured total would count that total twice.

## Model

| member | source | states |
|---|---|---|
| Text.ToLower | app/page.tsx:17 | lower-casing keeps the length and maps each character on its own |
| Text.Trim | app/page.tsx:17 | the result neither starts nor ends with whitespace |
| Text.TrimIsSlice | app/page.tsx:17 | what `trim()` keeps is a contiguous piece of the input, after the leading whitespace |
| Text.TrimPadded | app/page.tsx:17 | whitespace added around a string never changes its trimmed form |
| Text.TrimToLower | app/page.tsx:17 | trimming and lower-casing commute |
| Text.NatToString | app/components/timeSave.tsx:17 | `String(n)` is non-empty, all digits, with no leading zero |
| Text.IntToString | app/components/timeSave.tsx:17 | `String(i)` starts with '-' exactly for negative numbers, and its digits (after the sign) read back as the absolute value of i |
| Text.ParseDigitsAppend | app/page.tsx:21 | the digits of `a` followed by those of `b` are worth `a`·10^len(b) + `b` |
| Text.NatToStringRoundTrip | app/components/drawOverlay.tsx:94-95 | reading the digits of `String(n)` gives back n |
| Text.Pad2 | app/components/drawOverlay.tsx:94-95 | `padStart(2, '0')` has length max(2, n), keeps the text as its suffix and adds only zeros |
| Duration.FirstPrefixIndex | app/page.tsx:18 | the index of the first alternative that is a prefix, none before it matches |
| Duration.FirstPrefix | app/page.tsx:18 | the captured unit is an alternative that prefixes the text; none is captured iff no alternative matches |
| Duration.MatchDuration | app/page.tsx:18 | a match captures a non-empty run of digits and dots |
| Duration.CaptureFrom | app/page.tsx:18 | from a digit or dot, the numeral group captures a non-empty run of digits and dots |
| DurationFacts.MatchSkipsPrefix | app/page.tsx:18 | the search is unanchored and leftmost: text without a digit or dot in front of the input leaves the match unchanged |
| DurationFacts.EvaluateSkipsPrefix | app/page.tsx:18-39 | text without a digit or dot in front of the normalised input leaves the minutes unchanged |
| DurationFacts.ParseUntrimmed | app/page.tsx:17-18 | with no trailing whitespace, trimming changes nothing the search would see |
| DurationFacts.ParseSkipsLeadingText | app/page.tsx:14-40 | leading words such as "about " in front of a duration do not change the minutes |
| DurationFacts.ExampleLeadingText | app/page.tsx:18 | "about 2 min" gives 2 |
| Duration.ParseFloat | app/page.tsx:21 | `parseFloat` of a digit/dot run is NaN exactly when the run has no leading digit and no digit right after its leading dot; otherwise non-negative |
| Duration.DecimalValue | app/page.tsx:21 | the value of `a.b` lies between the integer `a` and `a + 1` |
| Duration.FractionValue | app/page.tsx:21 | the digits after the point are worth at least 0 and less than 1; their exact value is stated by `DurationFacts.DecimalValueDigits` |
| DurationFacts.DecimalValueDigits | app/page.tsx:21 | `a.b` is the whole number written with the digits of `a` then `b`, over 10^len(b): no digit is lost, reordered or reweighted |
| DurationFacts.DecimalValue125 | app/page.tsx:21 | `1.25` has the value 1.25 |
| Duration.ToMinutes | app/page.tsx:24-39 | the unit switch gives NaN exactly for a NaN value |
| Duration.Evaluate | app/page.tsx:18-39 | a finite result is never negative |
| Duration.ParseTimeString | app/page.tsx:14-40 | the empty string gives 0; a finite result is never negative |
| Duration.CapturedUnit | app/page.tsx:18 | only "sec", "min", "hr" or "hour" can be captured, because shorter alternatives come first |
| Duration.UnitScaling | app/page.tsx:22-39 | the switch on the captured unit (default "min") divides by 60 for seconds, multiplies by 60 for hours, else keeps the value |
| DurationFacts.NoNumeralParsesToZero | app/page.tsx:18-19 | an input without a digit or a dot gives 0 |
| DurationFacts.MatchNeedsNumeral | app/page.tsx:18-19 | the pattern fails exactly on inputs without a digit or a dot |
| DurationFacts.AllDigitsNumeral | app/page.tsx:18 | a digit string is a run of the `[\d.]` class |
| DurationFacts.ParseFloatDecimal | app/page.tsx:21 | `parseFloat` reads back a well-formed decimal `a.b` or integer `a` |
| DurationFacts.MatchLeadingNumeral | app/page.tsx:18 | a leading numeral is captured whole, then the unit that opens the text after the spaces |
| DurationFacts.NormalisedWellFormed | app/page.tsx:17 | trimming and lower-casing a numeral, spaces and a tail leave the numeral and lower-case the tail |
| DurationFacts.EvaluateLoneNumeral | app/page.tsx:22 | a numeral alone is read in minutes |
| DurationFacts.ParseNumeralAlone | app/page.tsx:22-38 | a numeral followed only by spaces is that many minutes |
| DurationFacts.ParseNumeralThenUnit | app/page.tsx:18-39 | a numeral, spaces and a tail give the numeral scaled by the tail's unit, in any letter case |
| DurationFacts.ParseWellFormed | app/page.tsx:14-40 | any well-formed decimal, spaces and tail give its value in minutes by the unit table |
| DurationFacts.ParseIgnoresPadding | app/page.tsx:17 | surrounding whitespace never changes the result |
| DurationFacts.ParseIgnoresCase | app/page.tsx:17 | letter case never changes the result |
| DurationFacts.DigitsValue | app/page.tsx:21 | the decimal form of n is read back as n |
| DurationFacts.ExampleNoMatch | app/page.tsx:15-19 | "" and "garbage" give 0 |
| DurationFacts.ExampleMinutes | app/page.tsx:34-38 | "2 min" gives 2 |
| DurationFacts.ExampleBareNumber | app/page.tsx:22 | "2" gives 2: the unit defaults to minutes |
| DurationFacts.ExampleUnknownUnit | app/page.tsx:34-38 | "2 days" gives 2: an unknown unit is minutes |
| DurationFacts.ExampleSeconds | app/page.tsx:25-28 | "90 sec" gives 1.5 |
| DurationFacts.ExampleHours | app/page.tsx:29-33 | "1 hr" gives 60 |
| DurationFacts.ExampleFraction | app/page.tsx:21 | "1.5 min" gives 1.5 |
| DurationFacts.ExampleTwoFractionDigits | app/page.tsx:21 | "1.25 min" gives 1.25, both fraction digits in their order |
| DurationFacts.ParseMinutes | app/page.tsx:14-40 | a well-formed decimal followed by " min" gives its value |
| DurationFacts.OneFractionDigit | app/page.tsx:21 | one digit after the point is that many tenths |
| DurationFacts.ExampleNormalised | app/page.tsx:17 | " 2 MIN " gives the same as "2 min" |
| DurationFacts.ExampleStrayDot | app/page.tsx:18-21 | a lone "." matches but `parseFloat` makes it NaN |
| ToolCatalogue.FindIndex | app/page.tsx:197 | the index of the first tool with the id; no earlier tool has it |
| ToolCatalogue.Find | app/page.tsx:197 | a found tool has the id; nothing is found iff no tool has it |
| ToolCatalogue.FindFirst | app/page.tsx:197 | `find` returns the first tool in catalogue order that has the id |
| ToolCatalogue.CatalogueIdsDistinct | app/page.tsx:43-187 | eleven tools, no two with the same id |
| ToolCatalogue.FindCatalogue | app/page.tsx:197 | looking up a catalogue tool's own id finds it |
| ToolCatalogue.OneMinute | app/page.tsx:92 | "1 min" gives 1 |
| ToolCatalogue.ThreeMinutes | app/page.tsx:53 | "3 min" gives 3 |
| ToolCatalogue.TwoAndAHalfMinutes | app/page.tsx:105 | "2.5 min" gives 2.5 |
| ToolCatalogue.CatalogueTimesParse | app/page.tsx:43-187 | every tool-level time parses to a finite value between 1 and 3 minutes |
| ToolCatalogue.SlackAndGmailTimes | app/page.tsx:45-66 | Slack's time is 3 minutes and Gmail's is 2 |
| TimeStore.TimeStore.constructor | app/stores/timeStore.tsx:4 | the total starts at 0 |
| TimeStore.TimeStore.SetTime | app/stores/timeStore.tsx:5 | the setter adds its argument to the total |
| TimeStore.AfterOneMoreCall | app/stores/timeStore.tsx:5 | one more call adds its argument to what earlier calls left |
| TimeStore.AfterCallsIsSum | app/stores/timeStore.tsx:5 | after any sequence of calls the total is the start plus the sum of the arguments |
| TimeStore.SumNonNegative | app/stores/timeStore.tsx:5 | non-negative arguments have a non-negative sum |
| TimeStore.TotalNeverDecreases | app/stores/timeStore.tsx:5 | non-negative arguments never lower the total, and from 0 it stays non-negative |
| ToolStore.ToolStore.constructor | app/stores/toolStore.tsx:3-7 | both fields start out null |
| ToolStore.ToolStore.SetCenteredTool | app/stores/toolStore.tsx:5 | replaces the centred tool, leaves the handler |
| ToolStore.ToolStore.SetHandleClick | app/stores/toolStore.tsx:7 | replaces the handler, leaves the centred tool |
| ScrollPhase.Ordinal | app/hooks/useScrollPhase.ts:6 | the five phases take positions 0 to 4 |
| ScrollPhase.CountReached | app/hooks/useScrollPhase.ts:16-20 | counts at most as many thresholds as there are |
| ScrollPhase.ClassifyCountsThresholds | app/hooks/useScrollPhase.ts:16-20 | the phase of v is the number of thresholds v has reached (lower bounds inclusive, every value classified) |
| ScrollPhase.CountReachedMonotone | app/hooks/useScrollPhase.ts:16-20 | a larger value reaches at least as many thresholds |
| ScrollPhase.ClassifyMonotone | app/hooks/useScrollPhase.ts:16-20 | more progress never gives an earlier phase |
| ScrollPhase.Classify | app/hooks/useScrollPhase.ts:16-20 | intro below 0.05 (negatives included), draw [0.05,0.1), click [0.1,0.3), merge [0.3,0.4), done from 0.4 (above 1 included) |
| ScrollPhase.ScrollPhaseHook.constructor | app/hooks/useScrollPhase.ts:10-11 | intro and progress 0 before any change, consistent with each other |
| ScrollPhase.ScrollPhaseHook.OnChange | app/hooks/useScrollPhase.ts:14-21 | records v and its phase; the phase keeps agreeing with the progress |
| ToolCarousel.LayoutConstants | app/components/toolCarousel.tsx:43-47 | an item takes 88 pixels and the container 408 |
| ToolCarousel.TotalHeight | app/components/toolCarousel.tsx:54 | the height of one copy is never negative |
| ToolCarousel.RenderList | app/components/toolCarousel.tsx:152-153 | three copies: length 3N, render index i shows tool i mod N |
| ToolCarousel.CopiesAgree | app/components/toolCarousel.tsx:152-153 | render indices one copy apart show the same tool |
| ToolCarousel.Wrap | app/components/toolCarousel.tsx:65-71 | the offset moves by 0 or exactly one copy; from (-T, 3T) it lands in (0, 2T) |
| ToolCarousel.WrapIdempotent | app/components/toolCarousel.tsx:68-69 | the scroll event raised by the correction changes nothing further |
| ToolCarousel.Distance | app/components/toolCarousel.tsx:93 | `Math.abs` of the difference: non-negative, 0 only for equal centres |
| ToolCarousel.FirstClosest | app/components/toolCarousel.tsx:87-98 | the child chosen is nearest the centre, and strictly nearer than every earlier child |
| ToolCarousel.CenteredTool | app/components/toolCarousel.tsx:87-100 | null only without children; otherwise a base tool of the catalogue |
| ToolCarousel.Carousel.constructor | app/components/toolCarousel.tsx:51-57 | the offset starts at N·88, the start of the middle copy |
| ToolCarousel.Carousel.OnScroll | app/components/toolCarousel.tsx:65-71 | wraps the offset unless the scroll is programmatic, then mirrors it into the state |
| ToolCarousel.Carousel.DetectCentered | app/components/toolCarousel.tsx:87-100 | the loop publishes exactly the centred tool, first minimum winning, and leaves the handler |
| ToolCarousel.Carousel.ScrollToItem | app/components/toolCarousel.tsx:104-121 | nothing without container or item; else sets the flag, starts a timer and targets offset + (item centre − container centre) |
| ToolCarousel.Carousel.ClearTimerFired | app/components/toolCarousel.tsx:122-124 | a 250 ms timer clears the flag, whatever later clicks started |
| ToolSelection.JsRem | app/components/toolSelection.tsx:112 | JavaScript `%`: in [0, b) for a non-negative dividend, in (−b, 0] for a negative one |
| ToolSelection.PrevIndex | app/components/toolSelection.tsx:42 | from an index in range, "previous" stays in range and one step forward (mod len) returns to it |
| ToolSelection.NextIndex | app/components/toolSelection.tsx:111-113 | 0 when the tool has no functions; otherwise (i + 1) mod len, in range |
| ToolSelection.NextTimes | app/components/toolSelection.tsx:108-115 | any number of "next" presses from an index in range stays in range |
| ToolSelection.IndexCycling | app/components/toolSelection.tsx:40-115 | in range, previous and next stay in range and undo each other |
| ToolSelection.ModSucc | app/components/toolSelection.tsx:112 | stepping a remainder by one is stepping the number by one |
| ToolSelection.NextTimesCycles | app/components/toolSelection.tsx:108-115 | k presses of "next" move the index k places round the cycle |
| ToolSelection.CurrentFunc | app/components/toolSelection.tsx:19 | a function is selected exactly when the index is within the tool's list |
| ToolSelection.CatalogueFunctionCounts | app/page.tsx:43-187 | every catalogue tool offers four functions |
| ToolSelection.IndexSurvivesToolChange | app/components/toolSelection.tsx:11-19 | an index kept across a change of tool, or moved by the buttons, still selects a function of any catalogue tool |
| ToolSelection.Panel | app/components/toolSelection.tsx:18-66 | nothing without a centred tool; else its name, the selected function, and the ripple until the first add |
| ToolSelection.ToolDescription.View | app/components/toolSelection.tsx:18-66 | nothing without a centred tool; else its name, the function at the index, and the ripple exactly until the first add |
| ToolSelection.ToolDescription.constructor | app/components/toolSelection.tsx:11-12 | index 0, not clicked |
| ToolSelection.ToolDescription.OnPrev | app/components/toolSelection.tsx:40-44 | index 0 goes to len − 1, any other index down by one |
| ToolSelection.ToolDescription.OnNext | app/components/toolSelection.tsx:108-115 | (i + 1) mod len, or 0 when the tool has no functions |
| ToolSelection.ToolDescription.OnAddToWorkflow | app/components/toolSelection.tsx:86-89 | sets `clicked` for good and calls the handler with the centred id only if one is installed |
| TimeSave.RoundHalfUp | app/components/timeSave.tsx:16 | `Math.round`: the nearest integer, halves up |
| TimeSave.FormatTime | app/components/timeSave.tsx:14-25 | a non-negative total is shown starting with a digit |
| TimeSave.FormatTimeUnit | app/components/timeSave.tsx:14-25 | "sec" below 1 minute, "min" below 60, "hr" below 120 and "hrs" from 120 on |
| TimeSave.FormatTimeShape | app/components/timeSave.tsx:14-25 | the text is round(60t) sec, floor(t) min, or floor(t/60) hr(s) |
| TimeSave.BannerUnits | app/page.tsx:24-39 | the unit words the banner writes scale as seconds, minutes, hours and hours |
| TimeSave.ParseCount | app/page.tsx:14-40 | a count, a space and one of those words is read back by the parser |
| TimeSave.SecondsReadBack | app/components/timeSave.tsx:15-17 | below a minute the banner reads back to within half a second |
| TimeSave.MinutesReadBack | app/components/timeSave.tsx:18-20 | below an hour it reads back to within a minute, never above the total |
| TimeSave.HoursReadBack | app/components/timeSave.tsx:21-23 | from an hour on it reads back to within an hour, never above the total |
| TimeSave.FormatTimeReadsBack | app/components/timeSave.tsx:14-25 | parsing the banner gives the total to its resolution |
| TimeSave.FontScale | app/components/timeSave.tsx:61 | between 14 and 32; 14 exactly from 23 characters on, 32 exactly for empty text |
| TimeSave.FontScaleMonotone | app/components/timeSave.tsx:61 | a longer text never gets a larger font |
| TimeSave.TimeSaveBanner.FontSize | app/components/timeSave.tsx:61 | the banner's font is between 14 and 32, at the floor exactly from 23 characters on |
| TimeSave.TimeSaveBanner.constructor | app/components/timeSave.tsx:10-12 | empty text, then the effect for the first phase and total |
| TimeSave.TimeSaveBanner.RunEffect | app/components/timeSave.tsx:27-59 | merge: glitching, "saved" shown, timers started; done: "saved" and the formatted total; otherwise hidden with the formatted total |
| TimeSave.TimeSaveBanner.Render | app/components/timeSave.tsx:27-59 | the effect reruns only when phase or total changed; entering merge keeps the old text until the first tick, with glitching, "saved" and the timers on; done and the other phases stop the timers and show the formatted total |
| TimeSave.TimeSaveBanner.GlitchTick | app/components/timeSave.tsx:32-38 | a tick shows the random digits drawn for it |
| TimeSave.TimeSaveBanner.StopFired | app/components/timeSave.tsx:40-44 | glitching ends and the formatted total is shown |
| DrawOverlay.Label | app/components/drawOverlay.tsx:94-95 | at least five characters with the colon third from the end |
| DrawOverlay.ShortNumeral | app/components/drawOverlay.tsx:95 | seconds below 60 take at most two digits |
| DrawOverlay.Pad2ReadsBack | app/components/drawOverlay.tsx:94-95 | a padded number reads back as the number |
| DrawOverlay.LabelReadsBack | app/components/drawOverlay.tsx:94-95 | minutes × 60 + seconds read from the label give the counter; minutes are never truncated |
| DrawOverlay.Overlay.constructor | app/components/drawOverlay.tsx:8-9 | hidden with counter 0, then the effect; visible exactly in draw and click |
| DrawOverlay.Overlay.RunEffect | app/components/drawOverlay.tsx:11-25 | click: visible and ticking; draw: visible, counter 0; otherwise counter 0 and the hide timeout pending |
| DrawOverlay.Overlay.OnPhase | app/components/drawOverlay.tsx:11-25 | a new phase cancels the pending interval or timeout, so re-entering draw or click keeps the box visible; the same phase changes nothing |
| DrawOverlay.Overlay.Tick | app/components/drawOverlay.tsx:14 | each tick adds exactly one second |
| DrawOverlay.Overlay.HideFired | app/components/drawOverlay.tsx:22 | the timeout hides the box |
| DrawOverlay.Overlay.View | app/components/drawOverlay.tsx:30 | nothing is rendered exactly when the box is not visible |
| Page.ToolMinutes | app/page.tsx:197-212 | a known id has a parsed tool time between 1 and 3 minutes; an unknown id has none |
| Page.Home.constructor | app/page.tsx:190-225 | nothing collected; the installed handler holds the total of the first render |
| Page.Home.HandleClick | app/page.tsx:196-219 | unknown id or missing element: no change; else one item `{id-suffix, color, tool}` appended and `capturedTime + parsed` added to the total |
| Page.Home.AddToWorkflow | app/components/toolSelection.tsx:86-89 | the function index never changes; a centred tool stops the ripple; without a centred tool, a handler, the element or a known id nothing is collected or added; otherwise the item `{id-suffix, color, tool}` is appended and the handler's captured total plus the tool's minutes added |
| Page.SlackAndGmailMinutes | app/page.tsx:45-66 | looking up "slack" and "gmail" finds Slack (3 minutes) and Gmail (2 minutes) |
| Page.SlackThenGmail | app/page.tsx:196-219 | adding Slack then Gmail gives two items and 5 minutes |

## Left out

- app/components/box.tsx is not part of this model. It is 3D rendering of the collected list. It passes a no-op `setCollected` to its orbiting boxes (box.tsx:285), so its click handler changes nothing on the page.
- The page's `handleCubeVisibleChange` and `showTime` fade are left out. `ThreePane` does not take the `onCubeVisibleChange` prop (box.tsx:258-262), so that handler is never called.
- The carousel's DOM side effects are left out: its `onWheel` stops the wheel event's propagation, and entering or leaving it sets `document.body.style.overflow` to hidden or auto (toolCarousel.tsx:148-150). They affect page scrolling only, which enters the model as an input.
- Also left out: the carousel's fade opacity (`Math.pow`), every `useTransform` interpolation, the `el.animate` pulse in `handleClick`, the hover id and its `console.log`.
- app/hooks/useGlobalScroll.tsx is not part of this model. Scroll progress enters as the argument of `OnChange`.
- Element geometry and `document.getElementById` are inputs, not modelled:
  - the container's and items' centres;
  - `elementPresent`;
  - the optional centres of `ScrollToItem`.
- The browser's clamping of `scrollTop` to the scrollable range is not modelled, and neither is the smooth-scroll animation. `ScrollToItem` returns the target offset, and the offsets the animation passes through arrive through `OnScroll`.
- Timers and intervals have no clock. Each firing is a method with a precondition that the timer is pending: `Tick`, `HideFired`, `GlitchTick`, `StopFired`, `ClearTimerFired`.
- React's scheduling and batching are not modelled. Each effect is a method that runs when its dependencies change.
- Randomness is a parameter: the `Math.random` id suffix is `suffix`, and the glitch digits are `digits`.
- Numbers are exact reals, not IEEE doubles. That affects `0.8 * length`, `/ 60`, `* 60` and the decimal value `parseFloat` computes. `String(n)` is modelled for integers, the only numbers the banner and the overlay print.
- Text.ToLower: lower-cases only the ASCII letters, not the rest of Unicode. Outside ASCII no character lower-cases to a digit, a dot or whitespace. U+0130 lower-cases to "i" followed by a combining dot; in a unit word that dot stops "min", "minute" and "minutes" from matching, and a unit that is not captured defaults to minutes, the unit those words select. So the parser's result does not depend on this.
- ToolCarousel.Carousel.DetectCentered: requires 3N child centres, one per rendered item. This is the number of children the container renders.
- Page.SlackThenGmail: states the total and the number of items, not their contents; `Page.Home.HandleClick` states those.
