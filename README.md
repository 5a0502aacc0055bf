# Chat screens of a realtime-database chat client, in Dafny

The application is a React Native chat client backed by a hosted realtime
database. Its own logic sits inside two screens of `App.tsx`:

- **Room addressing.** The private screen joins the sender and the receiver
  into one room id with `[senderId, receiverId].sort().join('_')`. The sender
  is `undefined` when nobody is signed in.
- **Sending.** `sendMessage` ignores text that is blank after `trim()`.
  Otherwise it pushes one record to the room's location (`publicChat/`, or
  `privateChats/<chatId>`) and clears the input box.
- **Receiving.** Every snapshot the database delivers is projected with
  `{ id: key, ...value }`. The result replaces the message list as a whole.
- **Showing.** The list is sorted in place by `timestamp` each time it is shown.

The model is split into five modules:

- `Js` (`js.dfy`) holds the JavaScript built-ins these expressions depend on,
  with the meaning ECMAScript gives them: `trim` and its whitespace set, `<` on
  strings, a two-element `sort()` without a comparator (where `undefined` goes
  last), and `join` (which renders `undefined` as `""`).
- `Records` (`records.dfy`) holds records, snapshots, the projection, and the
  in-place insertion sort by timestamp on an `array`.
- `Store` (`store.dfy`) models the database as a map from a location's path to
  the sequence of its children, in the order they were pushed. The `Database`
  class has the one mutating operation, `Push`.
- `Rooms` (`rooms.dfy`) holds the room id, the paths, and the addressing lemmas.
- `Screens` (`screens.dfy`) holds the records each screen pushes and one
  `ChatScreen` class for both screens. The class has the `text` and `messages`
  states and the handlers. The two screens differ only in their `Room`.

The clock (`Date.now()`), the signed-in user (`auth.currentUser`) and the push
key the library generates are parameters. The push key must be unused at its
location, which is the library's guarantee.

The database library refuses a write that contains `undefined`: `push` throws
before anything is written. The private screen writes `from: senderId`, which
is `undefined` when nobody is signed in. In that case `sendMessage` throws
before `setText('')`, so the store and the input box are unchanged.
`Database.Push` models this refusal and `ChatScreen.Send` reports it as
`Thrown`. This is the one piece of library behaviour built into the model,
because the anonymous case depends on it.

Two facts about the code that the model keeps as they are:

- With nobody signed in, the private screen does not refuse to open. It
  addresses the room `receiverId + "_"`.
- The two screens push records of different shapes. The public record
  carries a `user` label (the email, or `Anon`). The private record carries
  `from` and `to`.

## Model

| member | source | states |
|---|---|---|
| `Js.Trim` | App.tsx:66 | `text.trim()` is the infix of the text that starts where the leading trimmable code points end; everything before it and everything after it is trimmable, and if non-empty it neither starts nor ends with a trimmable code point |
| `Js.TrimBounds` | App.tsx:66 | a prefix `r` of a suffix `t` of `s`, where the rest of `t` is trimmable, is the infix of `s` at the start of `t`, and everything of `s` after it is trimmable |
| `Js.TrimStart` | App.tsx:66 | the result is a suffix of the input, everything dropped is trimmable, and the result does not start with a trimmable code point |
| `Js.TrimEnd` | App.tsx:66 | the result is a prefix of the input, everything dropped is trimmable, and the result does not end with a trimmable code point |
| `Js.BlankIffAllTrimmable` | App.tsx:66 | the guard `!text.trim()` holds exactly when every code point of the text is ECMAScript whitespace or a line terminator, in both directions |
| `Js.LexLessIrreflexive` | App.tsx:106 | no id sorts before itself under the default string order |
| `Js.LexLessAsymmetric` | App.tsx:106 | two ids never sort before each other |
| `Js.LexLessTotal` | App.tsx:106 | of two different ids one always sorts first, so the default comparison orders every pair |
| `Js.LexLessTransitive` | App.tsx:106 | the default string order is transitive |
| `Js.LexLessAtFirst` | App.tsx:106 | ids whose first code points differ are ordered by those code points |
| `Js.SortPair` | App.tsx:106 | `[x, y].sort()` returns the same two elements, in default order: `undefined` last, strings by `<` |
| `Js.SortPairUnique` | App.tsx:106 | any arrangement of the two elements in default order is the one `sort()` returns, so the sorted result is determined |
| `Js.JoinPair` | App.tsx:106 | joining two elements puts `'_'` between their renderings, and `undefined` renders as the empty string |
| `Rooms.ChatIdSmallerFirst` | App.tsx:106 | for two signed-in ids the room id is the smaller id, `_`, then the larger one, whichever user computes it |
| `Rooms.ChatIdSymmetric` | App.tsx:106 | the pair (A, B) and the pair (B, A) get the same room id |
| `Rooms.ChatIdSelf` | App.tsx:106 | a self-chat gets `A_A` |
| `Rooms.ChatIdAnonymous` | App.tsx:105-106 | with nobody signed in, the room id is the receiver's id followed by `_` |
| `Rooms.SplitAtSeparator` | App.tsx:106 | a `_`-free first half is recovered from `x_y`, and so is the rest |
| `Rooms.ChatIdInjective` | App.tsx:106 | for ids without `_`, equal room ids come from the same pair of users |
| `Rooms.ChatIdCollidesWithSeparator` | App.tsx:106 | ids containing `_` can collide: ("a_b", "c") and ("a", "b_c") both get `a_b_c` |
| `Rooms.PrivatePathsMeet` | App.tsx:109 | both participants subscribe and push to the same `privateChats/` location |
| `Rooms.PrivateIsNotPublic` | App.tsx:120 | no private location is `publicChat/` |
| `Records.Project` | App.tsx:59 | `{ id: key, ...value }` has the value's fields plus `id`; every field of the value is copied, so a stored `id` overrides the key |
| `Records.Parse` | App.tsx:58-59 | a null snapshot gives the empty list; otherwise there is one item per child, in order, each the projection of that child |
| `Records.ParseIdsAreKeys` | App.tsx:59 | when no stored value has its own `id`, the items' ids are the snapshot's keys, in order |
| `Records.ParseKeepsStamps` | App.tsx:59 | projection keeps every item's numeric timestamp |
| `Records.SortByTimestamp` | App.tsx:79 | in place: afterwards the array is non-decreasing by `timestamp` and is a permutation of the array before |
| `Records.InsertLast` | App.tsx:79 | one insertion step: a sorted prefix of length i becomes a sorted prefix of length i + 1 holding the same items as before, every cell after it is unchanged, and the array keeps its items |
| `Records.SiftDown` | App.tsx:79 | the loop of one insertion step: afterwards the prefix of length i + 1 is sorted, the array keeps its items and every later cell is unchanged |
| `Records.SwapStep` | App.tsx:79 | swapping the moving item with a larger predecessor keeps every timestamp and moves the one out-of-order place down by one |
| `Records.SortedAtRest` | App.tsx:79 | once the moving item is not below its predecessor, the whole prefix is non-decreasing by `timestamp` |
| `Records.SwapAdjacent` | App.tsx:79 | exchanging two neighbours changes only those two cells, leaves every later cell alone and keeps the items |
| `Records.SameSuffixSamePrefix` | App.tsx:79 | two arrangements of the same items that agree from position n on hold the same items before n |
| `Store.Appended` | App.tsx:68-72 | a push adds exactly one child, at the end of its location, and leaves every other location unchanged |
| `Store.PushedRecordDelivered` | App.tsx:110-113 | after a push, the parsed snapshot is the earlier list followed by the pushed record, with the push key as its `id` |
| `Store.Database.Push` | App.tsx:121-126 | a record without `undefined` is appended at its location under the fresh key; a record with one is refused and the tree is unchanged; keys stay unique |
| `Screens.SenderLabel` | App.tsx:70 | the `user` field is the email when it is present and non-empty, `Anon` otherwise, and never empty |
| `Screens.PrivateScreensMeet` | App.tsx:105-109 | two signed-in users who open each other's private screen subscribe and push to the same location |
| `Screens.PrivateScreenAnonymous` | App.tsx:105-109 | with nobody signed in, the private screen still opens and addresses the location `privateChats/` + `receiverId` + `_` |
| `Screens.PublicRecord` | App.tsx:68-72 | the public record has exactly the fields `text` (untrimmed), `user` and `timestamp` (numeric, the given time), and the store accepts it |
| `Screens.PrivateRecord` | App.tsx:121-126 | the private record has exactly `text`, `from`, `to` and `timestamp`; the store accepts it exactly when there is a sender |
| `Screens.OutgoingRecord` | App.tsx:118-126 | whichever screen pushes it, the record carries the untrimmed text and the given timestamp and has no `id`; it is refused exactly for a private screen with nobody signed in |
| `Screens.SentMessageDelivered` | App.tsx:110-126 | a pushed message reaches its room: the next parsed snapshot has one more item, and it ends with the item that has the push key as `id`, the sent text and timestamp, the `user` label on the public screen, and `to` and `from` on a private one. An anonymous private send never gets this far: the store refuses the record and `Send` returns `Thrown` |
| `Screens.SendKeepsRoomStamped` | App.tsx:118-126 | every record a screen pushes has a numeric `timestamp`, so a location whose children all have one keeps that property after a send |
| `Screens.StampedRoomParsesStamped` | App.tsx:111-113 | the snapshot of such a location parses to a list in which every item has a numeric `timestamp`, which is what `ShowMessages` needs |
| `Screens.SendLeavesOtherRoomsAlone` | App.tsx:120-126 | a push to one room leaves the snapshot of every other room's location unchanged; room locations never contain one another while ids contain no `/` |
| `Screens.ChatScreen.constructor` | App.tsx:52-53 | a screen starts with empty text and an empty message list |
| `Screens.ChatScreen.ChangeText` | App.tsx:91 | typing replaces the `text` state |
| `Screens.ChatScreen.ReceiveSnapshot` | App.tsx:57-60 | a delivered snapshot replaces the message list with a fresh array holding exactly its projection, so no earlier message survives |
| `Screens.ChatScreen.ShowMessages` | App.tsx:133 | the message array is sorted in place, non-decreasing by `timestamp`, and keeps the same messages |
| `Screens.ChatScreen.Send` | App.tsx:118-128 | blank text: nothing is written and `text` is kept; otherwise exactly one record with the untrimmed text and the given time goes to the room's path, no other location changes, and `text` becomes `''`; a refused push keeps both store and `text` |

## Left out

- Rendering (JSX, `FlatList`, `TextInput`, styles), the navigation stack, `EntryScreen` with its hard-coded `'USER_B_ID'`, and the login and register screens (`./src/components/Login`, `./src/components/Register` are not part of this model): these are presentation and wiring with no logic.
- The `useEffect` subscribe and unsubscribe lifecycle: it only calls into the library. Each delivery is modelled as a call to `ChatScreen.ReceiveSnapshot`. Subscribing again to the same location gives the same list, because `Parse` is a function of the snapshot.
- Library internals: `ref` path normalisation and path validation, how push keys are generated, and `onValue` delivery. A push key is a parameter, and the store is a flat map from path to children, so a location's snapshot does not include deeper locations.
- Strings are sequences of Unicode code points. JavaScript compares UTF-16 code units. The two orders differ only between characters above U+FFFF and characters in U+E000–U+FFFF.
- Push order and key order: a location's children are kept in the order they were pushed. The database lists them by key, and that is the same order only when each generated key is greater than every key before it. Push keys from one client are generated that way; keys from clients whose clocks disagree are not modelled.
- `Records.Parse` takes the entries in the order given. JavaScript lists integer-like keys first; push keys are never integer-like.
- Stored values that are not objects are not modelled. Field values are strings and integers only, so no floating point and no nested objects.
- `Records.SortByTimestamp`: requires every item's `timestamp` to be a `Num`. A missing or non-numeric one makes the comparator return `NaN`, which `sort` reads as 0, so the order is implementation-defined. A numeric string, which JavaScript would convert, is not modelled. The order of messages with equal timestamps is deliberately left open.
- The sorting algorithm: the JavaScript engine's own `sort` routine is not modelled. The model uses an insertion sort and promises only what `sort` with a consistent comparator promises, a sorted permutation.
- `Screens.ChatScreen.ShowMessages`: requires every message's `timestamp` to be a `Num`, for the same reason: a missing or non-numeric one makes the comparator return `NaN`, which `sort` reads as 0, and a numeric string is not modelled.
- `Screens.PrivateRoomFor`: the private screen reads `auth.currentUser?.uid` again on every render. The model fixes the sender when the screen is created, so signing in or out while the screen is open is not modelled.
- Network failures and write acknowledgements: writes are fire-and-forget, and a write that fails after `push` returns is not modelled.
