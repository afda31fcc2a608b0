# JSON-to-card projection of the card viewer page

The page script (`app.js`) turns JSON that the user pastes into a form into a
grid of flip cards. The submit handler does four things, all modelled here as
Dafny:

- It trims the input. Blank input leaves the page untouched.
- It clears the grid and parses the text. A parse failure becomes a single
  "Error" card.
- It normalises the parsed value into an ordered list of (key, value) entries.
  An array is keyed `"0"`, `"1"`, … in element order. A scalar or `null` becomes
  the single entry `value`. An object is taken as `Object.entries` lists it.
- It appends one card per entry. The front shows the key. The back shows the key
  and then either `String(v)` in a paragraph (scalars and null) or
  `JSON.stringify(v, null, 2)` in a `<pre>` block (arrays and objects). A key
  that lower-cases to exactly `pro`/`pros` gets the `card-pro` class, and one
  that lower-cases to `con`/`cons` gets `card-con`.

The script also defines a `truncate(str, maxLength)` helper, which is modelled
as well.

Files:

- `json_value.dfy` (module `JsonValue`) covers parsed JSON values, `String(v)` for
  scalars, `JSON.stringify(v, null, 2)`, and the string-literal escaping it uses,
  with a reader for that escaping.
- `normalise.dfy` (module `Normalise`) turns a value into entries, builds array-index
  keys, and states the property order `Object.entries` follows.
- `cards.dfy` (module `Cards`) holds the card record, the style hint, the per-entry
  card and the error card.
- `submit.dfy` (module `Submit`) models `trim`, the `#cards` container as a class,
  and the submit handler as a method. Its `forEach` is a loop that appends one card per entry.
- `truncate.dfy` (module `Truncation`) models `truncate`.

Notes on what the code does:

- The front of an entry card shows only the key. Nothing is truncated, and the
  handler never calls `truncate`.
- `Object.entries` lists an object's properties in JavaScript property order:
  array-index keys first, ascending, then the other keys in insertion order.
- The error card carries the heading "Error" and the message on both faces, and
  it is never styled.

## Model

| member | source | states |
|---|---|---|
| JsonValue.ToText | app.js:34-37 | `String(v)` of a scalar: null is the text "null", a string is itself, a boolean is "true"/"false" |
| JsonValue.Escape | app.js:42 | the escaped body of a serialised string is at least as long as the input, has no raw control character, and every quote in it is preceded by a backslash |
| JsonValue.Quote | app.js:42 | a serialised string is enclosed in double quotes |
| JsonValue.UnescapeEscape | app.js:42 | reading back the escaped body of a serialised string gives the original string |
| JsonValue.QuoteRoundTrip | app.js:42 | a string serialised by `JSON.stringify` parses back as a JSON string literal to the same string |
| JsonValue.Stringify | app.js:42 | `JSON.stringify(v, null, 2)`: a string reads back to itself; null and infinite numbers print as "null"; an array/object opens and closes with its own bracket and breaks onto several lines exactly when it is non-empty |
| Normalise.IndexKey | app.js:20 | `String(i)` is canonical decimal text (no leading zero) that reads back as i |
| Normalise.Entries | app.js:18-23 | an array of n elements gives n entries keyed `String(i)` holding element i in order; a scalar or null gives exactly `[("value", v)]`; an object gives its own members |
| Normalise.IndexKeyInjective | app.js:20 | distinct indices get distinct keys, so `Object.fromEntries` loses no element |
| Normalise.ArrayEntriesInPropertyOrder | app.js:19-25 | the entries built from an array (at most 2^32-1 elements) have distinct array-index keys in ascending order, so `Object.entries` after `Object.fromEntries` walks the elements in their original order |
| Cards.ToLower | app.js:50 | `toLowerCase` keeps the length, leaves no upper-case ASCII letter, turns each upper-case letter into its lower-case letter and keeps every other character |
| Cards.StyleOf | app.js:50-55 | positive exactly when the key spells "pro"/"pros" in any case, negative exactly when it spells "con"/"cons", none otherwise (so "pro1" gets none); the three are exclusive |
| Cards.DetailOf | app.js:34-44 | scalar/null values show `String(v)` as a paragraph (null as "null"); arrays/objects, and only they, show their 2-space serialisation preformatted, opening with their bracket |
| Cards.CardFor | app.js:27-55 | an entry's card is an entry card showing only the key on its front, with the key as the back's heading |
| Cards.ErrorCard | app.js:61-63 | the error card is labelled "Error", shows the message as a paragraph, has identical faces, is unstyled and is not an entry card |
| Cards.CardsFor | app.js:25-56 | exactly one card per entry, card i built from entry i |
| Cards.Project | app.js:25 | as many cards as entries, all entry cards, card i labelled with key i |
| Cards.ProjectOnePerEntry | app.js:25-55 | every normalised entry yields one entry card in entry order, labelled with the key on both faces, with the entry's detail and the key's style |
| Cards.ProjectArray | app.js:19-28 | an array of n elements gives n cards labelled "0".."n-1", card i detailing element i |
| Cards.ProjectScalar | app.js:21-22 | a scalar or null gives exactly one card, labelled "value", showing `String(v)`, unstyled |
| Cards.ProjectObjectLabels | app.js:25-28 | for an object as the runtime lists it, the card labels are its keys in order, each exactly once |
| Cards.ProjectExamples | app.js:19-55 | `{"pro":"x","CON":"y"}` gives positive then negative; `[10,20]` gives labels "0","1" |
| Cards.StyleExamples | app.js:50-55 | "pro1" is unstyled and "Pros" positive |
| Submit.Trim | app.js:10-11 | the trimmed input starts and ends with non-white-space, and is empty exactly when the input is all white space (the case the handler ignores) |
| Submit.TrimCutsOnlyWhitespace | app.js:10 | the trimmed input is a contiguous slice of the input and everything cut off is white space |
| Submit.Render | app.js:17-63 | a parse failure gives exactly one unstyled card, "Error" with the message, and no entry card; a successful parse gives entry cards only |
| Submit.CardGrid.Clear | app.js:14 | clearing leaves the grid empty |
| Submit.CardGrid.Append | app.js:109 | appending adds the card at the end and changes nothing else |
| Submit.AppendEntryCards | app.js:25-56 | the `forEach` appends one card per entry, in entry order, after the cards already in the grid |
| Submit.HandleSubmit | app.js:8-67 | blank input leaves the grid as it was; otherwise the grid holds exactly the cards of the parse outcome (the error card, or one card per entry appended in order), the previous cards gone |
| Truncation.Prefix | app.js:120 | `substring(0, end)` is a prefix of the string: empty for an end at or below 0, of length `end` within range, the whole string past the end |
| Truncation.Truncate | app.js:117-121 | empty input gives ""; input no longer than the limit is unchanged; for a limit of at least 3 a longer input gives exactly limit characters, its first limit-3 characters followed by "..."; below 3 a longer input gives "..." alone, longer than the limit; the result never exceeds max(limit, 3) |
| Truncation.TruncateExamples | app.js:117-121 | `truncate("abcdefghij", 5)` is "ab...", a short input is kept, and a limit of 2 gives "..." |

## Left out

- JsonValue.ToText: a finite number is kept abstract as the text JavaScript prints for it. Float-to-decimal formatting is not modelled.
- JsonValue.Stringify: the full round trip `JSON.parse(detail) == value` is not proved. Only the round trip of strings and the bracket/line framing are, because numbers are abstract and no JSON reader for whole values is modelled.
- `JSON.parse` is a foreign call. `Submit.HandleSubmit` takes it as a parameter `parse`, whose result is a value or an error message.
- DOM construction is replaced by the abstract `Card` record. This covers `createElement`, `innerHTML`/`textContent`, the `card`, `card-inner` and `card-face` wrappers, and the `role`/`tabindex` attributes. HTML in keys or messages injected through `innerHTML` is not modelled.
- The flip interaction (`is-flipped` toggling on click, Enter or Space) and the empty back-face listeners are not modelled. They are UI event plumbing with no effect on the cards.
- The status line (`setStatus`) and disabling/re-enabling the fetch button are not modelled. They are UI affordances.
- Strings are sequences of Unicode scalar values. JavaScript counts UTF-16 code units, so `truncate` lengths differ for characters outside the Basic Multilingual Plane. Lone surrogates cannot be represented and are not modelled. `JSON.parse` yields one for an escape such as `\ud800`, and `JSON.stringify` writes it back the same way.
- `toLowerCase` is modelled on ASCII letters only. Full Unicode case mapping is not modelled. No other character lower-cases to a letter of "pro", "pros", "con" or "cons", so the style hint is unaffected.
- Truncation.Truncate: only string inputs and integer limits are modelled. Other falsy inputs (`null`, `undefined`, `0`) and fractional limits are not.
- The relative order of non-index keys in an object (insertion order) is taken as given in `JObject`'s member list. It is not tracked.
