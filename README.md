# Memento, Chain of Responsibility and Flyweight, modelled in Dafny

The repository holds three small PHP demos of classic design patterns. This
project models the sequential logic in each of them and proves properties
about that logic:

- **Memento** (`memento.dfy`, module `Memento`). An `Originator` holds one
  string state, and `save` captures it in an immutable `ConcreteMemento`.
  A `Caretaker` keeps the mementos in order: `backup` appends the originator's
  current state, `undo` pops the newest memento (and does nothing when there
  are none), and `showHistory` lists every memento's label, oldest first.
  `Originator` and `Caretaker` are classes with `modifies` frames, and a
  memento is a value. The pure `Step`/`RunEvents` state machine over a
  `World` (the originator's state plus the caretaker's list) specifies the
  caretaker's methods, and the lemmas about backup, undo and restore are
  proved on it.
- **Chain of Responsibility** (`chain_of_responsibility.dfy`, module
  `ChainOfResponsibility`). Handlers are objects with a successor field
  that `setNext` overwrites. Each `handle` checks one request attribute. It
  then either throws (the `Thrown(message)` outcome) or forwards the
  unchanged attributes. The end of the chain yields null (`EndOfChain`).
  The methods `Handler.Handle` and `Handler.Next` are proved equal to `Run`,
  a recursive function over the sequence of checks.
- **Flyweight** (`flyweight.dfy`, module `Flyweight`). `Factory.getFile`
  caches one `File` object per path. It loads a file only on a cache miss
  and never evicts. `filesInCacheAmount` reports the cache's size.
- `wrappers.dfy` (module `Wrappers`) holds the `Option` datatype.

Things the model treats as parameters:

- The clock reading `date('Y-m-d H:i:s')` in the memento constructor is a
  `date` string parameter.
- The result of `str_shuffle` inside `generateRandomString` is a `shuffled`
  string parameter. `IsShuffleOf` states the only thing PHP guarantees about
  it: it is the pool rearranged by some permutation `perm` of its positions.
- The file system (`file_exists`, `file_get_contents`) is a `FileSystem`
  map from each existing path to its contents.

Two modelling choices about the caretaker:

- The PHP code has no way to read the oldest memento. `NoUndoKeepsHistory`
  shows that without undo the oldest memento stays at index 0.
- PHP's `undo` returns nothing but prints the name of the popped memento.
  `Caretaker.Undo` returns that memento as an `Option`.

## Model

| member | source | states |
|---|---|---|
| `Memento.Substr` | Patterns/Memento.php:102 | PHP `substr` with non-negative offset and length: the result has length min(length, length of s - offset) and holds the characters of s from offset on; it is empty when offset is at or past the end |
| `Memento.Repeat` | Patterns/Memento.php:42-45 | `str_repeat(s, n)` has n times the length of s characters, starts with s when n > 0, and every character comes from s |
| `Memento.RepeatPeriodic` | Patterns/Memento.php:42-45 | `str_repeat(s, n)` repeats with period the length of s; with its prefix s this makes it n copies of s |
| `Memento.ShufflePool` | Patterns/Memento.php:42-45 | the pool handed to `str_shuffle` is the alphabet repeated ceil(length/52) times: at least length characters, exactly length iff length is a multiple of 52, letters only |
| `Memento.GenerateRandomStringLength` | Patterns/Memento.php:38-50 | on any shuffle of the pool, `generateRandomString` as written returns length characters, except length - 1 when length is a positive multiple of 52; every character is a letter |
| `Memento.GenerateRandomStringShortAt52` | Patterns/Memento.php:40-49 | concrete case: the unshuffled alphabet (the identity permutation) is a valid shuffle of the 52-character pool, and the generated string then has 51 characters, not 52 |
| `Memento.IntendedRandomStringShape` | Patterns/Memento.php:38-50 | with offset 0, the generated string has exactly length characters, all letters |
| `Memento.GenerateRandomString` | Patterns/Memento.php:38-50 | `generateRandomString` as written: at most length characters, taken from the shuffled pool starting at its second character (offset 1); exactly length when the pool has more than length characters |
| `Memento.IntendedRandomString` | Patterns/Memento.php:38-50 | the corrected cut at offset 0: at most length characters, the pool's first ones; exactly length when the pool has at least length characters |
| `Memento.ConcreteMemento.GetState` | Patterns/Memento.php:95-98 | returns the state given at construction |
| `Memento.ConcreteMemento.GetDate` | Patterns/Memento.php:105-108 | returns the date stamped at construction |
| `Memento.ConcreteMemento.GetName` | Patterns/Memento.php:100-103 | the label is the date, then " / (", then the first min(9, length of state) characters of the state, then "...)" |
| `Memento.NameShowsOnlyPreview` | Patterns/Memento.php:100-103 | two mementos with the same date whose states agree on their first nine characters get the same label (the label is a preview, not an identity) |
| `Memento.Step` | Patterns/Memento.php:29-149 | one transition of originator and caretaker: backup adds one memento of the current state; undo removes the last memento, or does nothing on an empty history; handle and restore change only the state, to the new string or the memento's state |
| `Memento.BackupAppends` | Patterns/Memento.php:130-135 | backup adds exactly one memento; earlier mementos are unchanged; the new last memento holds the originator's current state; the state is untouched |
| `Memento.UndoRemovesNewest` | Patterns/Memento.php:140-149 | undo on an empty history leaves it empty; otherwise it removes exactly the last memento and keeps the prefix in order; it never changes the originator's state |
| `Memento.UndoInvertsBackup` | Patterns/Memento.php:130-149 | an undo right after a backup restores the world exactly |
| `Memento.RunEventsAppend` | Patterns/Memento.php:162-201 | running two event sequences one after the other is the same as running their concatenation |
| `Memento.UndosDrain` | Patterns/Memento.php:140-149 | k undos remove the newest min(k, n) of n mementos, keep the rest in order and leave the state alone; further undos on the emptied history change nothing |
| `Memento.RestoreRoundTrip` | Patterns/Memento.php:55-68 | after saving a memento, then any events, then a restore from that memento, the originator is back in its state at save time |
| `Memento.SessionRecordsInOrder` | Patterns/Memento.php:165-172 | n rounds of backup-then-handle append n mementos, oldest first: the start state, then each state handle moved to except the last; earlier mementos stay ahead of them |
| `Memento.NoUndoKeepsHistory` | Patterns/Memento.php:130-135 | events without undo only append: the old history, including its oldest memento, stays a prefix of the new one |
| `Memento.Originator.constructor` | Patterns/Memento.php:19-24 | the originator starts in the given state |
| `Memento.Originator.Handle` | Patterns/Memento.php:29-36 | the state is replaced by at most 30 characters cut from the start of `shuffled`, and by exactly 30 when `shuffled` has at least 30 (as every shuffle of the pool has, so `IntendedRandomStringShape` makes them 30 letters) |
| `Memento.Originator.Save` | Patterns/Memento.php:55-58 | the memento holds the current state and the given date |
| `Memento.Originator.Restore` | Patterns/Memento.php:63-68 | the state becomes the memento's state |
| `Memento.SaveHandleRestore` | Patterns/Memento.php:55-68 | save, any number of handle calls, then restore: the originator's state equals its state at save time |
| `Memento.Caretaker.constructor` | Patterns/Memento.php:119-125 | a new caretaker has an empty history and is bound to the given originator |
| `Memento.Caretaker.Backup` | Patterns/Memento.php:130-135 | the history becomes the old history plus a memento of the originator's current state; the originator is untouched; agrees with `Step` on `Backup` |
| `Memento.Caretaker.Undo` | Patterns/Memento.php:140-149 | on an empty history: nothing popped, history still empty; otherwise: the last memento is returned and removed, the prefix is kept; the originator is untouched; agrees with `Step` on `Undo` |
| `Memento.Labels` | Patterns/Memento.php:155-157 | the lines of a listing: one per memento of the history, in the same order, each that memento's label |
| `Memento.Caretaker.ShowHistory` | Patterns/Memento.php:151-158 | yields one line per memento, in insertion order, each line that memento's label (equal to `Labels` of the history) |
| `Memento.BackupAndHandle` | Patterns/Memento.php:165-166 | one backup followed by one handle: the old state is appended to the history and the state becomes the generated string |
| `Memento.OpeningRounds` | Patterns/Memento.php:165-175 | three rounds of backup-then-handle, then the listing: the history gains the state before each handle, the state is the last generated string, and the listing is the labels of the whole history |
| `Memento.UndoTwice` | Patterns/Memento.php:178-181 | two undos on a history of at least two mementos drop exactly the two newest; the originator's state is unchanged |
| `Memento.FourRounds` | Patterns/Memento.php:186-193 | four rounds of backup-then-handle append the current state and the first three generated states, in order; the state is the fourth generated string |
| `Memento.RestartFrom` | Patterns/Memento.php:196-199 | restore, handle, then backup: the state is the newly generated string and the history gains exactly one memento holding it |
| `Memento.MementoDemo` | Patterns/Memento.php:162-201 | the first listing is exactly the labels of the start state and of the first two generated states; the script ends with 6 mementos: the start memento "Dit is het begin", then the states generated before each later backup (by shuffles 2, 3, 4, 5 and 7), and the last listing starts with the start memento's label |
| `ChainOfResponsibility.Lookup` | Patterns/ChainOfResponsibility.php:61 | reading an attribute yields its value, or null when the key is missing |
| `ChainOfResponsibility.IsEmpty` | Patterns/ChainOfResponsibility.php:74 | PHP `empty()` per value type: null is empty, a boolean iff false, an integer iff 0, a string iff "" or "0" |
| `ChainOfResponsibility.IsBanned` | Patterns/ChainOfResponsibility.php:55-61 | strict `in_array` against `BANNED_IPS`: true exactly for the string "123.123.123.123", never for a non-string |
| `ChainOfResponsibility.Failure` | Patterns/ChainOfResponsibility.php:53-93 | the IP check fails with "Invalid IP" iff `ip` is a string strictly equal to a banned address; the logged-in check fails with "Must be logged in" iff `user_id` is empty; the admin check fails with "Must be admin user" iff `is_admin` is empty; otherwise each forwards |
| `ChainOfResponsibility.Run` | Patterns/ChainOfResponsibility.php:45-91 | the chain reaches its end (null) iff every check passes, and throws iff some check fails |
| `ChainOfResponsibility.FirstFailureWins` | Patterns/ChainOfResponsibility.php:57-91 | the chain throws the message of its first failing check |
| `ChainOfResponsibility.RunSplits` | Patterns/ChainOfResponsibility.php:45-50 | short-circuit: if a front part of the chain throws, the handlers after it do not affect the outcome; if it passes, the rest of the chain alone decides |
| `ChainOfResponsibility.ThrowsRegardlessOfOrder` | Patterns/ChainOfResponsibility.php:103-108 | whether a chain throws does not depend on the order in which the handlers are linked |
| `ChainOfResponsibility.Handler.constructor` | Patterns/ChainOfResponsibility.php:103-105 | a new handler has its check and no successor |
| `ChainOfResponsibility.Handler.SetNext` | Patterns/ChainOfResponsibility.php:37-40 | the successor field becomes the given handler, and nothing else changes |
| `ChainOfResponsibility.Handler.Next` | Patterns/ChainOfResponsibility.php:45-50 | with no successor the result is null (`EndOfChain`); otherwise it is the successor chain's outcome on the same attributes |
| `ChainOfResponsibility.Handler.Handle` | Patterns/ChainOfResponsibility.php:57-91 | a handler's `handle` has the outcome `Run` gives for the checks of the chain that starts at it |
| `ChainOfResponsibility.ChainDemo` | Patterns/ChainOfResponsibility.php:96-110 | the script's request passes all three handlers and reaches the end of the chain; the same request from the banned address throws "Invalid IP" |
| `Flyweight.File.constructor` | Patterns/Flyweight.php:23 | the file holds the given contents |
| `Flyweight.File.GetData` | Patterns/Flyweight.php:26-29 | returns the contents fixed at construction |
| `Flyweight.NewFile` | Patterns/Flyweight.php:17-24 | a missing path gives `InvalidArgument("File does not exist: " + path)`; an existing path gives a new File holding that path's contents |
| `Flyweight.CacheStep` | Patterns/Flyweight.php:39-43 | the cached paths after one `getFile`: nothing is removed, nothing besides the requested path is added, and the path is cached afterwards iff it was cached before or exists |
| `Flyweight.CachedAfterIsLoaded` | Patterns/Flyweight.php:39-49 | after a sequence of getFile calls, the cached paths are the ones cached before plus every requested path that exists |
| `Flyweight.CacheStepIdempotent` | Patterns/Flyweight.php:39-43 | a repeated request adds nothing to the cache, and no request removes a cached path |
| `Flyweight.Factory.constructor` | Patterns/Flyweight.php:34 | the cache starts empty |
| `Flyweight.Factory.GetFile` | Patterns/Flyweight.php:36-44 | a hit returns the cached File and leaves the cache alone, whatever the file system says; a miss on a missing file gives the exception and leaves the cache alone; a miss on an existing file caches a new File with that file's contents and returns it; cached entries never change; after a success the path is cached |
| `Flyweight.Factory.FilesInCacheAmount` | Patterns/Flyweight.php:46-49 | the number of cached paths |
| `Flyweight.FlyweightDemo` | Patterns/Flyweight.php:53-72 | the script's two requests for `image.png` return the same object, and after its nine requests the cache holds 3 files |

## Left out

- All `print` and `echo` output. ShowHistory returns the lines it would print.
- The wall clock. The memento's date is a parameter.
- The randomness of `str_shuffle`. Its result is a parameter, and `IsShuffleOf` (with the permutation as a further parameter) states what PHP guarantees about it.
- File system access. It is the `FileSystem` map given to each call. A `file_get_contents` failure on an existing file is not modelled.
- Memento.Originator.Handle: cuts the random state at offset 0 (`IntendedRandomString`) rather than the source's offset 1. This follows the finding below. At the one length the source uses (30), both versions yield 30 letters.
- The default `length = 10` of `generateRandomString`: the source never relies on it.
- Byte strings. PHP's `substr` and `strlen` count bytes, while a Dafny `string` counts characters. Strings are modelled as character sequences, so `GetName`'s nine-character preview agrees with PHP's nine-byte cut only for single-byte (ASCII) states. Every state the demo script produces is ASCII.
- PHP's loose typing. Request attributes are the values null, booleans, integers and strings. `empty()` is modelled for exactly these: null, false, 0, "" and "0". Reading a missing key gives null, without PHP's warning.
- `handle(null)` (the default `$attributes = null`) is not modelled. Attributes are always a map.
- Cyclic handler chains. In PHP such a chain recurses forever when every check on the cycle passes, and throws at the first failing check otherwise. `Handler.Handle` requires a `chain` witness: a finite list of handlers, each linked to the next, with the last having no successor.
- The `HandlerInterface` and `Memento` interfaces. Each has a single implementation here, modelled directly.
- Flyweight's static cache. `Factory::$files` is static, so every Factory instance shares it. The model keeps it as a field of one Factory object, which is how the script uses it.
- Exceptions stopping the script. `CachedAfter` assumes a failed getFile is caught and the calls carry on.
- PHP object identity for mementos. A memento is a value. Whether the caretaker hands back the same object is not modelled.

## Findings

| source | as written | input that shows it | evidently intended | confidence | as-written member | corrected member |
|---|---|---|---|---|---|---|
| Patterns/Memento.php:40-49 | `substr(str_shuffle(pool), 1, $length)` starts at offset 1. The pool holds 52·ceil(length/52) characters, so when length is a positive multiple of 52 the result is one character short | `generateRandomString(52)`: any shuffle of the 52 letters gives 51 characters | offset 0: a string of exactly length random letters | medium (not executed; the demo only asks for 30 characters, where both agree on length) | `Memento.GenerateRandomStringShortAt52` | `Memento.IntendedRandomStringShape` |
