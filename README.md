# Daily luck: time slots and the once-per-day gate

A model of the core of a single-page "daily luck" widget (`script.js`). The
page reads the hour in Japan time and puts it in one of four slots: deep night,
morning, afternoon or night. Each slot has a label and a guide line. When the
main button is clicked, the page shows one message drawn from that slot's pool,
at most once per day per slot. The first click of the day marks the slot as used
in the browser's key-value store (value `"1"`). Later clicks that day show a
"また次回" placeholder. In the deep-night slot the button opens a video
instead. The video source is drawn once and then stays fixed. Its own daily
flag is written only when playback started.

Modules:

- `Slots` (`slots.dfy`): the `Slot` datatype, the hour table `SlotByHour` and
  the page's own copy of it with the override (`TimeSlot`), plus the labels and
  guide lines.
- `Keys` (`keys.dfy`): the `y-m-d` date string, the day key
  `used:<date>:<slot>` and the deep-night key `used:deepnight:<date>`. It
  proves that distinct dates and slots give distinct keys, and that a
  deep-night key never equals a day key.
- `Content` (`content.dfy`): the pools, the message draw (`PickMessage`), the
  morning markup and the placeholder.
- `Gate` (`gate.dfy`): the flag store as a `map<string, string>`. It holds the
  day-slot gate (`DayGate`) and the deep-night gate (`DeepnightGate`) as
  functions of the store before the action, with lemmas about repeated use.
- `Widget` (`widget.dfy`): the class `DailyLuck`. Its fields are the store and
  the video source, and its methods `Click` and `DeepnightTrigger` change them
  in place. Each method is proved equal to the matching gate function.
- `Text` (`text.dfy`) holds string-splitting lemmas. `Wrappers`
  (`wrappers.dfy`) holds `Option`.

Things outside the core are passed in as parameters:

- the clock, as the calendar parts `y`, `m`, `d` (digit strings) and the hour
  `hh`;
- the random draw, as an index into the pool;
- the result of `play()`, as a boolean;
- the two module constants `DISABLE_DAILY_LIMIT` and `FORCE_SLOT`, as
  constructor parameters (`Widget.ShippedLimitDisabled` and
  `Widget.ShippedForceSlot` record the shipped values).

Behaviour of the source worth noting:

- The flag reads at script.js:158 and 218 and the day-slot write at script.js:228 are not guarded. A throwing `getItem` or `setItem` there aborts the handler. The deep-night write at script.js:192 sits inside the `try` of script.js:189-196, so a throwing `setItem` there is caught and logged, and the video plays with the flag unset.
- The deep-night flag is written only after `play()` succeeded (script.js:190-193). Attempting playback alone does not write it.
- The night slot covers every hour from 18 up. It is not bounded at 24.
- With the daily limit disabled, a day click still writes its key (script.js:228). A deep-night trigger does not (script.js:191).

## Model

| member | source | states |
|---|---|---|
| Slots.SlotByHour | script.js:37-42 | the slot of an hour is the one whose range holds it (lower bound inclusive), and no other slot's range holds it |
| Slots.SlotBoundaries | script.js:37-42 | hours 0 and 5 are deep night; 6 and 11 morning; 12 and 17 afternoon; 18 and 23 night |
| Slots.TimeSlot | script.js:240-248 | a set override is returned as is; without one, the duplicated hour table agrees with `SlotByHour` on every hour |
| Slots.ForcedSlotIgnoresHour | script.js:240-241 | with an override, the result is the same for any two hours |
| Slots.SlotLabel | script.js:44-49 | the label is one of 深夜, 朝, 昼 and 夜 |
| Slots.GuideText | script.js:51-56 | the guide is one of the four guide lines |
| Slots.SlotTextsDistinct | script.js:44-56 | distinct slots have distinct names, labels and guide lines |
| Slots.UnknownNameIsNight | script.js:44-56 | any name other than deepnight, morning or afternoon gets the night label and guide |
| Keys.DateString | script.js:203-204 | from digit parts, the date starts with a digit and contains no colon |
| Keys.DateStringInjective | script.js:134-135 | equal date strings from digit parts have equal year, month and day |
| Keys.StorageKey | script.js:58-60 | the day key starts with `used:`, and the date follows it |
| Keys.StorageKeyInjective | script.js:58-60 | a day key determines its date and slot name when the date has no colon |
| Keys.DayKeysDistinct | script.js:202-217 | distinct (date, slot) pairs give distinct day keys |
| Keys.DeepnightUsedKey | script.js:119-121 | the deep-night key starts with `used:d` |
| Keys.DeepnightKeysDistinct | script.js:133-136 | distinct dates give distinct deep-night keys |
| Keys.DeepnightKeyNotDayKey | script.js:119-121 | a deep-night key never equals a day key, whatever the slot name |
| Content.FormatFortune | script.js:63-65 | the morning markup is 21 characters longer than name plus message |
| Content.FormatFortuneInjective | script.js:65 | the morning markup determines the fortune when the name has no `<` |
| Content.PickMessage | script.js:62-71 | morning gives the markup of a morning-pool fortune; afternoon gives an afternoon-pool element; any other slot gives a night-pool element |
| Content.PickMessageCoversPool | script.js:62-71 | every entry of the slot's pool (for morning, its markup) is the result of some drawn index in range |
| Content.Placeholder | script.js:219 | the placeholder is the label framed by fixed text |
| Content.PlaceholdersDistinct | script.js:219 | distinct slots get distinct placeholders |
| Gate.MarkUsed | script.js:228 | afterwards the key reads as used; the other keys and values are unchanged |
| Gate.MarkUsedIdempotent | script.js:228 | marking a key twice equals marking it once |
| Gate.DayGate | script.js:217-228 | the click is fresh iff the limit is off or the key is unused; a fresh click writes the key; otherwise the placeholder is shown and the store is unchanged; afterwards the key is used; no other key changes |
| Gate.SecondDayClickIsPlaceholder | script.js:217-228 | with the limit on, a second click on the same date and slot shows the placeholder and changes nothing |
| Gate.DayGateIndependent | script.js:217-228 | a click on one key leaves every other key's used state as it was |
| Gate.DeepnightGate | script.js:158-196 | the trigger does nothing iff the limit is on and the key is used; otherwise the video opens on the source already set or on the drawn one; the key ends up used iff it was used or playback started with the limit on; a failed play changes no key |
| Gate.SecondNightTriggerIsNoOp | script.js:158-193 | with the limit on, a trigger whose playback started makes a second trigger that day do nothing |
| Gate.FailedPlaybackCanRetry | script.js:189-196 | after a failed play on an unused day, the next trigger opens the video again on the same source |
| Gate.UsedFlagsPersist | script.js:158-228 | a key used before a day click or a deep-night trigger is still used after it; no flag is ever cleared |
| Gate.VideoSourceStaysFixed | script.js:168-174 | once a source is set, every later trigger keeps it |
| Widget.DailyLuck.constructor | script.js:7 | the configuration and the store are as given; no video source is set |
| Widget.DailyLuck.DeepnightTrigger | script.js:133-197 | the outcome, the new store and the new source are those of `DeepnightGate` on the old store and source; every used flag stays used |
| Widget.DailyLuck.Click | script.js:199-236 | a deep-night slot acts as `DeepnightTrigger`; any other slot gives the outcome and new store of `DayGate` for that slot's key, placeholder and drawn message, with the source unchanged; every used flag stays used |
| Widget.ShippedConfigAlwaysDeepnight | script.js:238-241 | with the shipped override, every hour resolves to deep night |
| Widget.ShippedLimitNeverBlocks | script.js:7 | with the limit disabled as shipped, a deep-night trigger always opens the video and never writes the store |
| Widget.MorningScenario | script.js:199-228 | at hour 9 with the limit on, the first click shows a morning-pool fortune and the second the 朝 placeholder |
| Widget.DeepnightScenario | script.js:199-209 | at hour 2 with the limit on, the first trigger opens the drawn video and the second does nothing |

## Left out

- `getJSTParts` (script.js:18-35), the time-zone conversion through `Intl.DateTimeFormat`: the calendar parts and the hour are parameters.
- `Math.random` (script.js:64, 68, 70, 169): the draw is an index argument, and the requires keeps it inside the pool. The pools are therefore non-empty. On an empty afternoon or night pool the source shows `undefined`. On an empty morning pool `r.name` throws (script.js:65), and on an empty video pool `r.videoUrl` throws (script.js:170).
- Storage exceptions: the store is a total `map`, so a throwing `getItem` or `setItem` is not modelled. In the source it aborts the handler at script.js:158, 218 and 228, and is caught at script.js:192.
- DOM work (script.js:76-84, 102-117, 213-215, 219-233, 250-258): element lookups, `innerHTML`, styles, class toggles, button text, `applyTimeClass` and `refreshGuide`. Only the abstract outcome is reported.
- Video playback, mute toggling, the listeners registered on each deep-night trigger, and the tap-to-play handlers (script.js:86-98, 127-131, 138-152): these are asynchronous browser APIs. `play()` is a success boolean.
- The commented-out re-pick logic (script.js:176-185), which is dead code.
- The message and video data sets (script.js:2-5) are not part of this model. The pools are given sequences.
- Slots.TimeSlot: the override is one of the four slots (`Option<Slot>`). The source accepts any truthy string as `FORCE_SLOT`, and an empty-string override counts as unset there.
- Widget.DailyLuck.DeepnightTrigger: the video source is an `Option`. The browser's resolved `src` URL, and its falsy empty-string case, are not modelled.
- Widget.DailyLuck.Click: takes one consistent `(y, m, d, hh)`. The source reads the clock separately for the slot (script.js:202, via 243) and for the date (script.js:203), and again inside `toggleDeepnightVideo` (script.js:134). Across midnight these reads can come from different instants.
- Widget.DailyLuck.DeepnightTrigger: each trigger is one atomic step. In the source the handler is `async` (script.js:199) and awaits `toggleDeepnightVideo` (script.js:208), which reads the flag at script.js:158 and writes it only after `await deepnightVideo.play()` (script.js:190-192). A second click while `play()` is pending reads the flag as unset and passes the gate, so with the limit on there can be two video grants in one day. Gate.SecondNightTriggerIsNoOp holds only for a second trigger that starts after the first has completed.
