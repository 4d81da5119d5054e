# poor-perf: the state logic under the demo pages

poor-perf is a React teaching app. It reproduces rendering-performance mistakes on purpose. Most of it is rendering, effects and I/O. This project models the deterministic state logic underneath, with the UI runtime removed, and proves properties of it in Dafny.

It has four modules:

- `Text` (text.dfy) covers the JavaScript string built-ins the logic uses:
  - the decimal text a template literal produces for a number (`NatToString`), with a parser that inverts it;
  - `toLowerCase`, restricted to ASCII letters (`ToLower`);
  - `includes` (`Contains`), proved equal to "occurs at some position";
  - `repeat` (`Repeat`).
- `App` (app.dfy) covers the main page, src/App.jsx:
  - `createExpensiveData` is a method with a loop, proved equal to the pure function `ExpensiveData`;
  - the inline search filter is the recursive function `Filter`, with lemmas for membership, subsequence, per-position selection (`FilterConcat`, `FilterLengthCountsMatches`), the empty term and letter case;
  - the `slice(0, 50)` page is `FirstPage`;
  - the three state registers (`count`, `searchTerm`, `updateCounter`) are the `AppState` record, with one transition function per handler.
- `MemoryLeak` (memory_leak.dfy) covers the large-data accumulator of src/PerformanceProblems.jsx:
  - a class `MemoryLeakComponent` whose fields are the two state registers `largeDataSet` and `isGenerating`;
  - its methods `GenerateLargeData` (append one batch of 10000 items) and `Clear`;
  - a pure action-sequence model (`Apply`, `ApplyAll`) with lemmas about growth and clearing.
- `ComplexState` (complex_state.dfy) covers the nested-state component of src/PerformanceProblems.jsx:
  - the state tree is a set of nested datatypes;
  - `updateNestedState`'s updater is the function `UpdateNestedState`, with frame properties for each path;
  - the theme toggle is `ToggleTheme`;
  - `addRandomUser` is `AddRandomUser`.

Clocks, random numbers and ISO timestamps are parameters. Each module indexes them by where the call happens:
- In `App`, `Math.random()` results are a function from the item's index to a real.
- In `MemoryLeak`, `Math.random()` results are a function from (item index, payload slot) to a real. `Date.now()` readings and `toISOString()` texts are each a function from the item's index.
- In `ComplexState`, the `Math.floor(Math.random() * k)` results are passed in as natural numbers already floored (`nameDraw`, `emailDraw`, `postCount`). `Date.now()` readings are integers and `toISOString()` texts are strings.

In `generateLargeData`, `Array.from`'s callback calls `Date.now()` for the id (src/PerformanceProblems.jsx:12) and, separately, `new Date()` for the timestamp (src/PerformanceProblems.jsx:14). So each item takes two clock readings of its own, and a batch does not share one reading. The model passes the two as independent parameters, `clock(i)` and `stamps(i)`. Ids in a batch are proved pairwise distinct when the clock does not go backwards. They are exactly `base + i` when the clock reads `base` throughout.

`JSON.parse(JSON.stringify(prevState))` copies a value. In Dafny, datatype values are already values, so the copy is the identity and does not appear.

Three points about what the code does and does not guarantee:
- `addUser` stores whatever `new Date().toISOString()` returns (src/PerformanceProblems.jsx:217). So no ordering of `lastUpdated` is claimed; the model stores the supplied stamp.
- The deep copy yields a new object, distinct by reference from the old state root. Reference identity has no counterpart for value datatypes, so it is not stated.
- Each generate click adds exactly 10000 items to the list (src/PerformanceProblems.jsx:18-19), and a clear empties it (src/PerformanceProblems.jsx:42), whatever came before.

The busy flag `isGenerating` is set to true and back to false within one handler. React batches the two updates, so the disabled state of the button is never seen between clicks. The model's `GenerateLargeData` ends with the flag false.

Two handlers read the value captured at render time rather than the updater's `prev`:
- The counter button uses `setCount(count + 1)` (src/App.jsx:113).
- The theme toggle computes the new theme from the render-time `complexState` (src/PerformanceProblems.jsx:264-265), not from the `prevState` the updater receives.

The model treats each click as happening one render after the last, so the render-time value and the previous state coincide. `RunCounts` and `ToggleTheme` rely on this.

## Model

| member | source | states |
|---|---|---|
| `App.CreateExpensiveData` | src/App.jsx:5-17 | the loop returns exactly the list `ExpensiveData(draws)`: 10000 items, item `i` built from index `i` and the `i`-th random draw |
| `App.ExpensiveData` | src/App.jsx:5-17 | the generated list has 10000 items and the item at index `i` is `ExpensiveItem(i, draws(i))` |
| `App.ExpensiveItem` | src/App.jsx:9-14 | item `i` has id `i` and name "Item " followed by the decimal text of `i`; its value lies in [0, 1000) when the random draw lies in [0, 1) |
| `App.ItemDescription` | src/App.jsx:13 | an item's description begins with the sentence naming its number and is exactly ten such sentences long |
| `App.ExpensiveDataDistinct` | src/App.jsx:8-11 | two different positions of the generated list carry different ids and different names |
| `App.Filter` | src/App.jsx:81-84 | the filtered list is no longer than the data, and every item in it comes from the data and matches the search term |
| `App.Matches` | src/App.jsx:81-84 | definition of the filter callback's test (lower-cased name or description includes the lower-cased term); it has no ensures, and its partners are `FilterMembership` and `FilterConcat` |
| `App.FilterMembership` | src/App.jsx:81-84 | an item is kept exactly when it is in the data and its lower-cased name or description includes the lower-cased term (both directions) |
| `App.FilterIsSubsequence` | src/App.jsx:81-84 | the filtered list is a subsequence of the data, so the data's order is kept |
| `App.FilterSingleton` | src/App.jsx:81-84 | a one-item list is kept exactly when its item matches, and dropped otherwise |
| `App.FilterConcat` | src/App.jsx:81-84 | filtering a concatenation is concatenating the filtered parts, so each position is kept or dropped on its own |
| `App.FilterLengthCountsMatches` | src/App.jsx:81-84 | the filtered list has exactly one entry per matching position of the data, duplicates included |
| `App.FilterAllMatch` | src/App.jsx:81-84 | when every item matches, the filter returns the data unchanged |
| `App.FilterEmptyTerm` | src/App.jsx:82-83 | the empty search term keeps every item, so the filtered length equals the data length |
| `App.FilterIgnoresCase` | src/App.jsx:82-83 | two search terms with the same lower-cased form give the same filtered list |
| `App.FilterLowerCasedTerm` | src/App.jsx:82-83 | searching for the lower-cased term gives the same list as searching for the term |
| `App.NameIncludesItem` | src/App.jsx:11 | every generated name, lower-cased, includes "item" |
| `App.SearchItemFindsAll` | src/App.jsx:78-84 | searching "ITEM" keeps all 10000 generated items, because the match ignores letter case |
| `App.FilterIgnoresValues` | src/App.jsx:81-84 | two lists that differ only in their random values filter to lists of the same length that differ only in their random values |
| `App.RerenderSelectsSameItems` | src/App.jsx:78-84 | two renders with different random draws select the same items (same ids, names and descriptions, in the same order) |
| `App.FilteredData` | src/App.jsx:78-84 | each render's filtered list has at most 10000 items, all from that render's generated list and all matching the current search term |
| `App.FirstPage` | src/App.jsx:148 | the rendered page is a prefix of the filtered list of length min(50, its length) |
| `App.InitialAppState` | src/App.jsx:73-75 | both counters start at 0 and the search term starts empty |
| `App.CountClick` | src/App.jsx:113 | the count button raises `count` by exactly 1 and leaves the other registers unchanged |
| `App.HandleItemUpdate` | src/App.jsx:98-101 | an item update raises `updateCounter` by exactly 1 and leaves `count` and `searchTerm` unchanged |
| `App.HandleSearch` | src/App.jsx:103-105 | a search replaces the search term and leaves both counters unchanged |
| `App.RunCounts` | src/App.jsx:98-113 | over any series of actions, `count` rises by the number of count clicks, `updateCounter` by the number of item updates, and the search term ends as the last one searched |
| `Text.NatToString` | src/App.jsx:11 | the decimal text of a number is non-empty and all digits; a text longer than one digit does not start with 0, and 0 is written "0" exactly |
| `Text.ParseNatToString` | src/App.jsx:11 | reading the decimal text back gives the number |
| `Text.NatToStringInjective` | src/App.jsx:11 | different numbers have different decimal texts |
| `Text.PrefixedNatInjective` | src/App.jsx:11 | a fixed prefix followed by the decimal texts of two different numbers gives two different strings |
| `Text.LowerChar` | src/App.jsx:82-83 | one character lower-cased: no capital remains, capitals move to their small letter, everything else is kept |
| `Text.ToLower` | src/App.jsx:82-83 | lower-casing keeps the length and lower-cases each character in place |
| `Text.ToLowerIdempotent` | src/App.jsx:82-83 | lower-casing twice is the same as lower-casing once |
| `Text.ToLowerConcat` | src/App.jsx:82-83 | lower-casing distributes over concatenation |
| `Text.Contains` | src/App.jsx:82-83 | definition of `includes` as "a prefix of the text or of one of its suffixes"; it has no ensures, and its partner is `ContainsIffOccurs` |
| `Text.ContainsIffOccurs` | src/App.jsx:82-83 | `includes` holds exactly when the term occurs at some position of the text (both directions) |
| `Text.ContainsEmpty` | src/App.jsx:82-83 | every text includes the empty term |
| `Text.ContainsPrefixOf` | src/App.jsx:82-83 | a text includes every prefix of its own prefix |
| `Text.Repeat` | src/App.jsx:13 | `s.repeat(n)` has length `n` times the length of `s` |
| `MemoryLeak.BigItemAt` | src/PerformanceProblems.jsx:11-16 | a generated item has id equal to the clock reading plus its index, and a payload of exactly 1000 random numbers, in draw order |
| `MemoryLeak.NewBatch` | src/PerformanceProblems.jsx:11-16 | a batch has exactly 10000 items; item `i` has id equal to its `Date.now()` reading plus `i`, the ISO stamp of its separate `new Date()` reading, and a payload of 1000 numbers whose slot `j` is draw `(i, j)` |
| `MemoryLeak.BatchIdsIncrease` | src/PerformanceProblems.jsx:11-12 | with a clock that does not go backwards, ids rise strictly through a batch, so they are pairwise distinct |
| `MemoryLeak.BatchIdsFromBase` | src/PerformanceProblems.jsx:11-12 | when the clock reads `base` throughout, item `i` has id `base + i` |
| `MemoryLeak.MemoryLeakComponent.constructor` | src/PerformanceProblems.jsx:5-6 | the list starts empty and the busy flag starts false |
| `MemoryLeak.MemoryLeakComponent.GenerateLargeData` | src/PerformanceProblems.jsx:9-21 | the new list is the old list with one batch appended; its length rises by exactly 10000; the old list is an unchanged prefix; the busy flag is false afterwards |
| `MemoryLeak.MemoryLeakComponent.Clear` | src/PerformanceProblems.jsx:42 | the list becomes empty whatever it held, and the busy flag is unchanged |
| `MemoryLeak.Apply` | src/PerformanceProblems.jsx:9-42 | a generate click keeps the old list as a prefix and adds exactly 10000 items; a clear click gives the empty list |
| `MemoryLeak.ApplyAllConcat` | src/PerformanceProblems.jsx:9-42 | running two series of clicks in turn is the same as running their concatenation |
| `MemoryLeak.GenerateOnlyGrows` | src/PerformanceProblems.jsx:18-19 | with no clear among the clicks, the old list stays a prefix and the length rises by exactly 10000 per click |
| `MemoryLeak.ClearForgetsHistory` | src/PerformanceProblems.jsx:42 | after a clear, the list depends only on the clicks that follow it |
| `ComplexState.InitialState` | src/PerformanceProblems.jsx:183-202 | users, posts and comments start empty; likes and shares start empty; `lastUpdated` is null and `version` is 1; theme "light", language "zh", notifications email on, push on, sms off |
| `ComplexState.UpdateNestedState` | src/PerformanceProblems.jsx:205-223 | 'theme' sets only the theme; 'email' sets only the e-mail flag; 'addUser' appends the value to users, raises version by exactly 1, stamps `lastUpdated`, and keeps settings and other collections; any other path returns the previous state |
| `ComplexState.ThemeUpdateUndone` | src/PerformanceProblems.jsx:211-212 | writing the old theme back after a theme update restores the whole state, so nothing but the theme changed |
| `ComplexState.EmailUpdateUndone` | src/PerformanceProblems.jsx:213-214 | writing the old e-mail flag back after an e-mail update restores the whole state, so nothing but that flag changed |
| `ComplexState.ThemeAndEmailCommute` | src/PerformanceProblems.jsx:211-214 | a theme update and an e-mail update give the same state in either order |
| `ComplexState.AddUsersEffect` | src/PerformanceProblems.jsx:215-218 | adding users one by one appends them in order, raises version by their number, stamps the last time, and keeps the settings |
| `ComplexState.ToggledTheme` | src/PerformanceProblems.jsx:264-266 | the toggle yields "light" or "dark", and "dark" exactly when the current theme is "light" |
| `ComplexState.ToggleTheme` | src/PerformanceProblems.jsx:263-266 | the toggle button sets the theme to the toggled value of the current theme |
| `ComplexState.ToggleThemeTwice` | src/PerformanceProblems.jsx:264-266 | from "light" or "dark", toggling twice gives back the whole state |
| `ComplexState.ToggleThemeFromOther` | src/PerformanceProblems.jsx:264-266 | from any other theme, one toggle gives "light" and two give "dark" |
| `ComplexState.RandomPost` | src/PerformanceProblems.jsx:230-234 | post `i` is an object with exactly the keys id, title and content, and its id is the clock reading plus `i` |
| `ComplexState.RandomUser` | src/PerformanceProblems.jsx:226-235 | the built user is an object with exactly the keys id, name, email and posts; its id is the clock reading; it has exactly the drawn number of posts |
| `ComplexState.AddRandomUser` | src/PerformanceProblems.jsx:225-237 | adding a random user keeps the old users as a prefix and appends the built user; version rises by exactly 1; `lastUpdated` is the stamp; settings are unchanged |

## Left out

- React effect scheduling and dependency arrays (src/App.jsx:87-95; src/PerformanceProblems.jsx:65-84, 110-135): that behaviour lives in the React runtime, which is not part of this model.
- The network fetch of `NetworkHeavyComponent`, with its async flow and error logging: network I/O.
- DOM listeners for mousemove, scroll and resize, and the `setTimeout`/`clearTimeout` timers: host I/O and asynchrony.
- Floating point: `Math.random()` results are opaque reals passed in as parameters. `Math.sin`/`Math.cos` in the per-item calculation and `toFixed` only feed rendering and are left out.
- `Date.now()` and `toISOString()` are parameters. The model does not assume successive readings increase, except where `BatchIdsIncrease` names that as a premise.
- JavaScript numbers are modelled as unbounded integers (ids, counters, `version`). Loss of precision above 2^53 is not modelled.
- `Text.ToLower`: lower-cases ASCII capitals only. Unicode case mapping is not modelled. The generated names are ASCII, and the descriptions contain no ASCII capitals.
- `ComplexState.UpdateNestedState`: `value` ranges over JSON-representable values (`Json`). `Json.Num` holds integers only, so non-integer JSON numbers are not modelled. JavaScript values that `JSON.stringify` drops or changes (undefined, functions, NaN) are not modelled. The deep copy is therefore the identity.
- JSX, inline styles, hsl colours, console logging, the per-item "expensive calculation" and the 100-element render: presentation only.
- The `users.map` rendering and the display strings around the counters: presentation only.
