# y2skk: a verified model of its core

y2skk is a Japanese SKK input method. This project models four parts of it in Dafny and proves what they
are meant to guarantee.

- **The engine** (`Engine`, `EngineTypes`, `Conversion`, `Paging`, `RegisterBuffer`, `KanaTables`): a state
  machine over input phases, pending romaji, candidates and a stack of registration frames. `SkkEngine` is a
  class with the fields of the original; one method per handler. `EngineExamples` holds inputs and runs that fail.
- **The user dictionary and its text format** (`Lisp`, `Dict`, `DictFormat`, `DictSave`, `UserDictionary`,
  `UserDictLaws`, `Providers`): escaping and delimiting of S-expressions, the line format, saving, loading,
  learning, purging and completion.
- **Numeric conversion** (`NumTemplate`, `NumConvert`): digit-run templates, the capped expansion of recursive
  markers, and kanji numerals.
- **Two protocols**: the reconnecting client (`Cooldown`, `Reconnect` as one thread runs it;
  `ReconnectProtocol`, `ReconnectSafety`, `ReconnectWakeUp`, `ReconnectDelivery`, `ReconnectRuns`, `ReconnectFailure`
  for all interleavings with the monitor thread, `ReconnectExamples` for runs that reach what they leave possible) and
  the Wayland key filter (`Wayland`).

`Text` holds the string and list operations that the rest shares.

## How the model relates to the code

- Loops and mutating methods are Dafny methods; each is proved against a function, and what the code promises is
  proved about that function. `Valid()` of `SkkEngine` and `WaylandState` is required and kept by every public
  method, so what follows from it holds in every reachable state.
- What a key does outside a selection is a function of the state (`PhaseEffect`): the texts it commits, whether it is
  passed on, and the phase or conversion it leads to. Each handler is proved to have that effect, and
  `DispatchAndIntercept` says where it ends up with a registration frame open.
- The sessions of the daemon share their dictionaries. A run of the engine may have arbitrary changes of the
  dictionaries between its keys; the ghost field `offeredBy` records those that the candidates on offer come from.
- The engine keeps its dictionaries as values. `Providers.Dictionary.User` learns and purges by the functions
  that the class `UserDict` is proved to compute.
- Characters are Unicode scalar values. Dictionary text is indexed by character. The registration cursor and the
  preedit offsets are UTF-8 byte offsets, as in the code.
- Hash-map order is arbitrary: a saved text is any text that some order of the buckets produces.
- Randomness, clocks and the network are parameters: times are numbers, a D-Bus call is delivered, or its request
  or its reply is lost, and in `Reconnect` the daemon's answers are two scripts. Number conversion, code decoding,
  read-only dictionaries and the kana table are arbitrary parameters, so the results hold for all of them.
- In `ReconnectProtocol` locking a mutex, running the code under the guard, and dropping the guard are three steps,
  and each thread has an explicit set of guards. Waiting on the condition variable gives the guard back. A panic
  poisons the session mutex, and every later lock of it panics.

## Where the code does less than its purpose

For each of these the exact condition is proved in both directions; for a stale session id that reaches another engine
it is a necessary condition with a run that shows it. The example modules and members named `...Example` hold inputs that
fail.

- An annotation that is a literal-free `concat` behind blanks changes on a save (`DictFormat.AnnotationRoundTrip`,
  `DictFormat.BareConcatExample`).
- A headword ending in an ASCII letter after other characters is read back as headword and okurigana key
  (`DictFormat.SplitRoundTrip`, `DictFormat.LetterExample`).
- An abbreviation that begins with a semicolon is learned and saved, and the next load skips it as a comment
  (`UserDictLaws.LearnedEntrySurvives`, `DictFormat.CommentExample`).
- Learning twice differs from learning once when an old directive, once pruned, is spelled like a learned word, or a
  learned directive like none (`UserDictLaws.LearnTwice`, `UserDictLaws.ClashExample`, `UserDictLaws.RespellingExample`).
- A save moves headwords that have both kinds of bucket, so completion order survives only if those are the oldest
  (`UserDictLaws.RecencySurvivesSave`, `UserDictLaws.RecencyExample`).
- A purge names the bucket by the okurigana text and the headword with its digits, so it misses the bucket that the
  candidate came from when either differs (`Engine.SkkEngine.PurgeReaches`, `Providers.PurgeExample`,
  `EngineExamples.PurgeDigitsExample`).
- A literal number sign before a digit is lost in a template (`NumTemplate.RefillUndoesScan`,
  `NumTemplate.ScanCollision`).
- The purge prompt answers some keys with nothing (`Engine.SkkEngine.ProcessKey`,
  `EngineExamples.PromptIgnoresEscape`).
- Destroying a handle while a session for a key on it is being made panics the thread of that key, and then every
  thread that locks the session table (`ReconnectRuns.PanicsExactly`, `ReconnectExamples.DestroyedHandlePanics`). Callers
  that do not do that are safe (`ReconnectRuns.DisciplinedRunsNeverStall`).
- A thread that records a failure and then panics on the poisoned session table never notifies the monitor, which stays
  parked until another failure, a call that goes through, or a spurious wake-up (`ReconnectRuns.EveryRunIsSynchronised`,
  `ReconnectExamples.PanicStallsMonitor`).
- An id from before a failure can stand in the session table after the failure was handled, exactly when a call that
  was under way then is about to write it (`ReconnectFailure.OldIdsExactly`,
  `ReconnectExamples.OldIdOutlivesFailure`).
- After a daemon restart a stale session id can name another client's engine
  (`ReconnectRuns.EveryRunDeliversAtMostOnce`, `ReconnectExamples.OldIdReachesNewEngine`).
- A release that the engine does not pass on, for a press that it did, leaves the key down in the application
  (`Wayland.WaylandState.Key`, `Wayland.WaylandState.LosesRelease`).
- At one tick per second the grace period is shorter than the tick interval (`Wayland.GraceOutlastsTick`).

## Model

| member | source | states |
|---|---|---|
| `Lisp.ReadStringLiteral` | crates/skk-core/src/dict/lisp.rs:42-70 | The loop over the iterator reads exactly the literal that the recursive reader reads, or rejects the same inputs |
| `Lisp.TakeOctal` | crates/skk-core/src/dict/lisp.rs:50-66 | At most three octal digits are taken, whatever digits follow |
| `Lisp.ParseStringList` | crates/skk-core/src/dict/lisp.rs:87-106 | The loop collects exactly the literals of the list, or rejects it |
| `Lisp.FindSexpEnd` | crates/skk-core/src/dict/lisp.rs:124-158 | The loop with its depth and string flags finds the same end as the recursive scan |
| `Lisp.WriteStringLiteral` | crates/skk-core/src/dict/lisp.rs:170-184 | What is appended to the buffer is the quoted form |
| `Lisp.RenderIgnoreDicWord` | crates/skk-core/src/dict/lisp.rs:206-214 | The rendered directive is the head symbol and one quoted literal per word |
| `Lisp.ReadUndoesEscape` | crates/skk-core/src/dict/lisp.rs:42-70 | Reading undoes escaping for every string, also when octal digits follow an escape, and leaves the rest of the input |
| `Lisp.EscapeIsClean` | crates/skk-core/src/dict/lisp.rs:170-184 | Escaped text holds no raw slash, semicolon or line break |
| `Lisp.FormIsDelimited` | crates/skk-core/src/dict/lisp.rs:124-158 | The end of a form is found at its last parenthesis, whatever parentheses, quotes or backslashes its literals hold and whatever follows |
| `Lisp.ParseFormUndoesRender` | crates/skk-core/src/dict/lisp.rs:75-118 | A form of rendered literals parses back into the same list of words |
| `Lisp.QuoteConcatRoundTrip` | crates/skk-core/src/dict/lisp.rs:187-193 | A quoted text evaluates to itself, is delimited exactly, and holds no reserved character |
| `Lisp.RenderIgnoreRoundTrip` | crates/skk-core/src/dict/lisp.rs:206-214 | A rendered ignore list classifies as the same list, is not taken for a concat, is delimited exactly and holds no reserved character |
| `Lisp.RenderIgnoreInjective` | crates/skk-core/src/dict/lisp.rs:206-214 | Different ignore lists have different renderings |
| `DictFormat.AnnotationRoundTrip` | crates/skk-core/src/dict/file.rs:369-377 | An annotation is read back exactly when it is not a literal-free concat behind leading blanks |
| `DictFormat.BareConcatExample` | crates/skk-core/src/dict/file.rs:369-377 | Such an annotation: a blank and a literal-free concat is written as it stands and read as the empty text |
| `DictFormat.FieldRoundTrip` | crates/skk-core/src/dict/file.rs:380-408 | A written candidate is read back, with its directive in canonical form, exactly when it survives: its annotation is no bare concat and an opaque form delimits itself |
| `DictFormat.SplitRoundTrip` | crates/skk-core/src/dict/file.rs:353-366 | Headword and okurigana key are told apart again exactly for the recoverable keys |
| `DictFormat.LetterExample` | crates/skk-core/src/dict/file.rs:353-366 | A kana headword that ends in a letter is read back as another headword with a key |
| `DictFormat.FieldsRoundTrip` | crates/skk-core/src/dict/file.rs:411-430 | The candidates of a line come back exactly when a field can carry each of them and each survives |
| `DictFormat.RowRoundTrip` | crates/skk-core/src/dict/file.rs:433-466 | A written line is read back as the same headword, key and candidates exactly when the headword can stand in front of its fields and every candidate comes back |
| `DictFormat.ReadHead` | crates/skk-core/src/dict/file.rs:433-466 | Whatever line is read, its headword is found again in front of its fields, but for a leading semicolon |
| `DictFormat.CommentExample` | crates/skk-core/src/dict/file.rs:433-440 | A headword that begins with a semicolon is written as a comment, which reading skips |
| `DictFormat.RowIsOneLine` | crates/skk-core/src/dict/file.rs:475-527 | A written row stays on one line and ends in a slash |
| `DictFormat.ParseSkkDictOrdered` | crates/skk-core/src/dict/file.rs:433-466 | The loop that fills the ordered map returns what the line-by-line definition says, errors included |
| `DictFormat.LinesOfLayout` | crates/skk-core/src/dict/file.rs:433-440 | Splitting the saved layout into lines gives back its comment lines and rows |
| `DictSave.SerializeUserDict` | crates/skk-core/src/dict/file.rs:475-527 | The text written is a saved text of the map: okurigana rows, then plain rows, headwords oldest first |
| `DictSave.ParseChain` | crates/skk-core/src/dict/file.rs:433-466 | Parsing a saved text is adding its rows to an empty map one after the other |
| `DictSave.ReadingYieldsReadHeads` | crates/skk-core/src/dict/file.rs:433-466 | Every headword of every file that can be read is one that a line can carry, but for a leading semicolon |
| `DictSave.ReloadedBuckets` | crates/skk-core/src/dict/file.rs:433-466 | Every bucket is there after a reload and nothing is added |
| `DictSave.SaveLoadRoundTrip` | crates/skk-core/src/dict/file.rs:433-527 | For every storable map and every order of buckets, parsing the saved text gives back every bucket, with directives in canonical form |
| `DictSave.SavedRow` | crates/skk-core/src/dict/file.rs:433-527 | In any saved text that can be read, beside rows that a line can carry, a row on one line is found in its bucket as its own line is read |
| `UserDictionary.UserDict.Load` | crates/skk-core/src/dict/file.rs:165-178 | A dictionary loaded from text holds what the parser returns and is clean |
| `UserDictionary.UserDict.Save` | crates/skk-core/src/dict/file.rs:181-193 | Text is written only when there was a change, it is a saved text of the entries, and the dictionary is clean afterwards |
| `UserDictionary.UserDict.Learn` | crates/skk-core/src/dict/file.rs:219-259 | The entries after learning are the learned map: the headword last, its bucket rebuilt |
| `UserDictionary.UserDict.Purge` | crates/skk-core/src/dict/file.rs:264-287 | The entries after purging, the report of a removal, and when the dictionary becomes dirty |
| `UserDictionary.PruneDirectives` | crates/skk-core/src/dict/file.rs:243-254 | The pass over the bucket takes learned words out of directives and then drops empty directives |
| `UserDictionary.PromoteStep` | crates/skk-core/src/dict/file.rs:235-241 | One turn of the reversed loop puts a learned candidate in front and removes its word further back |
| `UserDictLaws.FirstByWordWords` | crates/skk-core/src/dict/file.rs:235-241 | Each learned word is kept once |
| `UserDictLaws.LearnedBucketShape` | crates/skk-core/src/dict/file.rs:235-254 | For all candidates: the learned ones come first, once each, the old ones with other words follow in their old order, and directives in both parts lose the learned plain words |
| `UserDictLaws.PlainStaysPlain` | crates/skk-core/src/dict/file.rs:235-254 | Plain candidates are learned as they are |
| `UserDictLaws.DirectivesArePruned` | crates/skk-core/src/dict/file.rs:243-254 | After learning, no directive in the bucket is empty, stale or lists a learned word |
| `UserDictLaws.LearnedMap` | crates/skk-core/src/dict/file.rs:219-259 | The headword is last in recency order; every other headword and bucket keeps content and order |
| `UserDictLaws.LearnTwice` | crates/skk-core/src/dict/file.rs:219-259 | For all entries: learning twice is learning once exactly when no old directive clashes with a learned word and no learned directive is respelled; plain entries are never respelled |
| `UserDictLaws.ClashExample` | crates/skk-core/src/dict/file.rs:243-254 | A clash that one learned candidate makes with a directive as it is read from a file |
| `UserDictLaws.RespellingExample` | crates/skk-core/src/dict/file.rs:243-254 | A directive that learning twice doubles |
| `UserDictLaws.LearnKeepsStorable` | crates/skk-core/src/dict/file.rs:219-259 | Learning a writable entry keeps the map storable |
| `UserDictLaws.PurgedMap` | crates/skk-core/src/dict/file.rs:264-287 | Purging takes one word out of one bucket and leaves all other buckets alone; headwords keep their order, and one goes exactly with its last word |
| `UserDictLaws.PurgeReports` | crates/skk-core/src/dict/file.rs:264-287 | A removal is reported exactly when the bucket held the word |
| `UserDictLaws.PurgeKeepsStorable` | crates/skk-core/src/dict/file.rs:264-287 | Purging keeps the map storable |
| `Providers.PurgeExample` | crates/skk-core/src/engine.rs:2063-2090 | A purge that names the okurigana misses the bucket that is kept under its consonant |
| `EngineExamples.PurgeDigitsExample` | crates/skk-core/src/engine.rs:2063-2090 | A purge of a headword with digits misses the template that is stored |
| `Providers.PurgeForgets` | crates/skk-core/src/dict/file.rs:264-287 | For every bucket and every word: it holds the word afterwards exactly if it held it before and the purge did not name that bucket and that word |
| `UserDictLaws.CompleteReloaded` | crates/skk-core/src/dict/file.rs:296-307 | For one prefix, completion after a reload is the same list exactly when the okurigana headwords that match are the oldest ones that match |
| `UserDictLaws.RecencySurvivesSave` | crates/skk-core/src/dict/file.rs:475-527 | Completion survives a save for every prefix exactly when no headword with plain buckets only is older than one with both kinds |
| `UserDictLaws.RecencyExample` | crates/skk-core/src/dict/file.rs:475-527 | A storable map with two headwords whose completion order a save changes |
| `UserDictLaws.LearnedEntrySurvives` | crates/skk-core/src/dict/file.rs:219-527 | For every storable map: with one more learned entry, the saved file is read back as it should exactly when the headword can stand in front of its fields and holds no newline, the word is not empty, and the annotation is no bare concat |
| `UserDictLaws.UnmixedIsMixedFirst` | crates/skk-core/src/dict/file.rs:475-527 | It does when no headword has both kinds of bucket |
| `NumTemplate.Scan` | crates/skk-core/src/num/template.rs:29-54 | The loop with its run buffer computes the template and the digit runs |
| `NumTemplate.ScanShape` | crates/skk-core/src/num/template.rs:29-54 | The template has no digits, and as many added number signs as there are runs; the runs are non-empty and all digits |
| `NumTemplate.ScanSeparatesRuns` | crates/skk-core/src/num/template.rs:29-54 | Without literal number signs, no two number signs of the template are adjacent |
| `NumTemplate.RefillUndoesScan` | crates/skk-core/src/num/template.rs:29-54 | Putting the runs back rebuilds the headword exactly when no literal number sign stands before a digit |
| `NumTemplate.ScanInjective` | crates/skk-core/src/num/template.rs:29-54 | On headwords without literal number signs, template and runs determine the headword |
| `NumTemplate.ScanCollision` | crates/skk-core/src/num/template.rs:29-54 | With literal number signs they need not |
| `NumTemplate.Expand` | crates/skk-core/src/num/template.rs:68-107 | The loop over the word computes its expansion, or fails when a marker has no run or no conversion |
| `NumTemplate.CrossCapped` | crates/skk-core/src/num/template.rs:146-160 | The nested loops with their early exit give the first 256 of the product |
| `NumTemplate.ConvertRuns` | crates/skk-core/src/num/template.rs:204-212 | The inner loop converts all runs with one type, or gives up on the first that fails |
| `NumTemplate.ExpandWithRecursiveLookup` | crates/skk-core/src/num/template.rs:125-184 | Capping at 256 after each recursive marker gives exactly the first 256 of all expansions, in order |
| `NumTemplate.CapEarly` | crates/skk-core/src/num/template.rs:146-160 | Capping before and after a product is capping after it |
| `NumTemplate.CappedEmptiness` | crates/skk-core/src/num/template.rs:125-184 | The capped list is empty exactly when there is no expansion |
| `NumTemplate.EmptyMeansUnresolvable` | crates/skk-core/src/num/template.rs:125-184 | There is no expansion exactly when some marker on the way cannot be resolved |
| `NumTemplate.ExpansionsAreSound` | crates/skk-core/src/num/template.rs:125-184 | The list holds exactly the texts that split into one alternative for each piece of the template |
| `NumTemplate.WithoutRecursiveMarker` | crates/skk-core/src/num/template.rs:68-184 | Without a recursive marker the list is the result of the plain expansion, as a list of at most one |
| `NumTemplate.SynthesizeWords` | crates/skk-core/src/num/template.rs:198-214 | One synthetic word for each type that can represent all runs, in the order of the types |
| `NumConvert.KanjiGroup` | crates/skk-core/src/num/convert.rs:149-174 | The loop over small units writes the numeral of a group below ten thousand |
| `NumConvert.WritePlace` | crates/skk-core/src/num/convert.rs:155-168 | One small unit with its digit, which is left out when it is one and the style omits it |
| `NumConvert.WriteLarge` | crates/skk-core/src/num/convert.rs:121-134 | One group with its unit, or nothing for an empty group |
| `NumConvert.TakeGroup` | crates/skk-core/src/num/convert.rs:121-134 | One turn of the loop writes the next group and leaves the rest |
| `NumConvert.KanjiNumber` | crates/skk-core/src/num/convert.rs:108-146 | The loop over large units writes the numeral of every number below 2^64 |
| `NumConvert.LargeGroup` | crates/skk-core/src/num/convert.rs:121-134 | Dividing what is left by a large unit gives the next four decimal digits, below ten thousand |
| `NumConvert.SmallDigit` | crates/skk-core/src/num/convert.rs:149-174 | Dividing what is left of a group by a small unit gives its next decimal digit, below ten |
| `NumConvert.NumeralsKeepValue` | crates/skk-core/src/num/convert.rs:74-174 | Reading a numeral by place-value rules gives back the number, for both styles and every number below 2^64 |
| `NumConvert.NumeralsAreDistinct` | crates/skk-core/src/num/convert.rs:74-174 | Different numbers have different numerals, in both styles |
| `KanaTables.OverlayRules` | crates/skk-core/src/kana/table.rs:78-95 | Removing rules one key at a time and appending the user rules gives the overlaid list |
| `KanaTables.OverlayAnswers` | crates/skk-core/src/kana/table.rs:78-95 | The overlaid list answers from the user rules where they have the key and from the base rules elsewhere |
| `KanaTables.EffectiveTransitions` | crates/skk-core/src/kana/table.rs:187-206 | The loop keeps the rules that no override replaces, then the overrides |
| `KanaTables.StartNeverRetries` | crates/skk-core/src/kana/table.rs:99-158 | For every table: a transition from the empty state never asks for a retry, and a retry repeats the input |
| `KanaTables.TransitionInScript` | crates/skk-core/src/kana/table.rs:99-158 | Without overrides every script chooses the same rule and only converts its output |
| `KanaTables.ScriptsAgree` | crates/skk-core/src/engine.rs:700-754 | Without overrides, feeding input in another script goes through the same states and commits the character-wise conversion |
| `KanaTables.ScriptsAgreeOnAscii` | crates/skk-core/src/kana/table.rs:209-334 | In particular for every ASCII input |
| `KanaTables.ConvertSplit` | crates/skk-core/src/kana/table.rs:219-234 | Script conversion distributes over concatenation |
| `RegisterBuffer.Buffer.Insert` | crates/skk-core/src/engine.rs:2236-2239 | Inserting at a byte offset is inserting in the zipper, and the cursor stays on a character boundary |
| `RegisterBuffer.Buffer.Backspace` | crates/skk-core/src/engine.rs:2124-2135 | Removing the character before a byte offset is backspace in the zipper |
| `RegisterBuffer.Buffer.Delete` | crates/skk-core/src/engine.rs:2138-2144 | Removing the character at a byte offset is delete in the zipper |
| `RegisterBuffer.Buffer.Left` | crates/skk-core/src/engine.rs:2147-2157 | Moving the byte offset back is moving left in the zipper |
| `RegisterBuffer.Buffer.Right` | crates/skk-core/src/engine.rs:2160-2167 | Moving the byte offset on is moving right in the zipper |
| `RegisterBuffer.SessionRefinesZipper` | crates/skk-core/src/engine.rs:2124-2167 | A whole editing session on byte offsets is the same session on a two-list zipper |
| `RegisterBuffer.ZipIsInjective` | crates/skk-core/src/engine.rs:2124-2167 | Nothing of the buffer is lost in the zipper |
| `RegisterBuffer.BackspacesUndoInsert` | crates/skk-core/src/engine.rs:2124-2135 | One backspace for each inserted character restores the buffer, whatever the byte widths |
| `RegisterBuffer.MovesCancel` | crates/skk-core/src/engine.rs:2147-2167 | Left and right cancel each other away from the ends |
| `RegisterBuffer.DeleteIsRightBackspace` | crates/skk-core/src/engine.rs:2138-2144 | Delete is right followed by backspace |
| `Paging.CancelUndoesSpace` | crates/skk-core/src/engine.rs:1743-1825 | Cancel after Space returns to the same index, for every index and setting |
| `Paging.PagesAreAdjacent` | crates/skk-core/src/engine.rs:1804-1838 | The display after Space begins where the one before it ended |
| `Paging.SpaceShowsEverythingOnce` | crates/skk-core/src/engine.rs:1804-1838 | Pressing Space until registration shows every candidate exactly once and in order, in finitely many presses |
| `Paging.CancelRetracesSpace` | crates/skk-core/src/engine.rs:1720-1771 | From any index Space reaches, cancel goes back through the same displays |
| `Paging.Pager.Previous` | crates/skk-core/src/engine.rs:1738-1753 | Cancel strictly decreases the index |
| `Paging.StepsStayOnRun` | crates/skk-core/src/engine.rs:1720-1838 | Space and cancel lead from the start of a display to the start of a display |
| `Paging.MovesStayOnRun` | crates/skk-core/src/engine.rs:1720-1838 | After any mixture of Space and cancel the index is inside the list and at the start of a display |
| `Paging.PickedIsShown` | crates/skk-core/src/engine.rs:1840-1880 | A selection key picks a candidate that is on display beside that key |
| `Paging.KeyPicksItsCandidate` | crates/skk-core/src/engine.rs:1840-1880 | A key picks the candidate beside it exactly when it does not occur earlier among the keys |
| `Conversion.BuildCandidates` | crates/skk-core/src/engine.rs:1450-1655 | The loops with the seen set build the two columns of the candidate list |
| `Conversion.OfferAll` | crates/skk-core/src/engine.rs:1549-1632 | The loop over dictionary candidates offers every alternative that is not hidden, once |
| `Conversion.OfferAlternatives` | crates/skk-core/src/engine.rs:1556-1612 | One dictionary candidate adds its alternatives that are neither hidden nor seen |
| `Conversion.OfferSynthetic` | crates/skk-core/src/engine.rs:1634-1655 | Synthetic words are appended when no candidate has that word |
| `Conversion.SecondaryWords` | crates/skk-core/src/engine.rs:1507-1547 | Words substituted for a recursive marker are distinct, at most 256, words of plain candidates, and not in a directive of the same entries |
| `Conversion.WordsAreDistinct` | crates/skk-core/src/engine.rs:1549-1655 | No word appears twice in the candidate list |
| `Conversion.CandidatesAreSound` | crates/skk-core/src/engine.rs:1549-1655 | Every dictionary candidate has the annotation and template word of a plain candidate, its word is that word or one of its expansions, and no directive hides it; the others are synthesized from the digits |
| `Conversion.CandidatesAreComplete` | crates/skk-core/src/engine.rs:1549-1632 | Every word that a plain candidate stands for is listed unless a directive hides it |
| `Conversion.FirstOccurrenceOrder` | crates/skk-core/src/engine.rs:1549-1655 | Dictionary words come in the order of their first offer, before synthetic ones |
| `Conversion.HigherPriorityFirst` | crates/skk-core/src/engine.rs:1460-1466 | What dictionaries of higher priority offer is the front of the list, and later ones only add other words |
| `EngineTypes.OfferedCandidates` | crates/skk-core/src/engine.rs:1439-1694 | Whenever candidates are offered, their words are distinct and each is what its origin says in the dictionaries of the moment of the conversion |
| `EngineTypes.SplitKeepsText` | crates/skk-core/src/engine.rs:197-205 | A registered word is never empty, an annotation is never empty and holds no semicolon, and the parts are the buffer again up to a final semicolon |
| `EngineTypes.CommitsAreAbsorbed` | crates/skk-core/src/engine.rs:2277-2300 | What a key would have committed goes into the buffer at the cursor, in order |
| `EngineTypes.Intercepted` | crates/skk-core/src/engine.rs:2300-2315 | What is sent instead is never empty and holds no text, no passed-on key and no deletion |
| `EngineTypes.AbsorbedSplit` | crates/skk-core/src/engine.rs:2277-2300 | Absorbing two lists of actions one after the other is absorbing both |
| `EngineTypes.FindLast` | crates/skk-core/src/engine.rs:197-205 | The last position of a character, or that there is none |
| `Engine.SkkEngine.constructor` | crates/skk-core/src/engine.rs:240-277 | A new engine keeps the invariant, and only a base phase is accepted as initial phase |
| `Engine.SkkEngine.InFrame` | crates/skk-core/src/engine.rs:2428-2500 | The preedit puts the cursor on a character boundary between what is shown before it and after it |
| `Engine.SkkEngine.BuildPreedit` | crates/skk-core/src/engine.rs:2388-2506 | Cursor and ghost start are character boundaries in every state |
| `Engine.SkkEngine.LearnAll` | crates/skk-core/src/engine.rs:1987-1991 | Every dictionary learns the entry |
| `Engine.SkkEngine.PurgeAll` | crates/skk-core/src/engine.rs:2078-2080 | Every dictionary purges the word |
| `Engine.SkkEngine.FinalizeRegister` | crates/skk-core/src/engine.rs:2201-2240 | Finishing a frame learns its entry; the word goes to the application with its okurigana, or without it to the cursor of the enclosing buffer |
| `Engine.SkkEngine.CancelRegister` | crates/skk-core/src/engine.rs:2244-2273 | Giving a frame up returns to the headword as typed, or to the enclosing frame, which is unchanged |
| `Engine.SkkEngine.InterceptForRegister` | crates/skk-core/src/engine.rs:2277-2315 | The buffer absorbs the commits and deletions, and the actions sent are the intercepted ones |
| `Engine.SkkEngine.StartConversion` | crates/skk-core/src/engine.rs:1439-1694 | A conversion offers exactly the candidate list of the dictionaries at that moment at index 0, or opens a fresh frame when it is empty |
| `Engine.SkkEngine.ShareDictionaries` | crates/skk-daemon/src/session.rs:28-112 | Whatever another session does to the shared dictionaries between two keys, the invariant holds and the candidates on offer stay |
| `Engine.SkkEngine.ListingShow` | crates/skk-core/src/engine.rs:1936-1947 | A page is as long as its keys and never empty, and is shown only in listing mode |
| `Engine.SkkEngine.CommitCandidate` | crates/skk-core/src/engine.rs:1951-2011 | A choice commits the word, its okurigana and the trigger, and learns the template form unless it is synthetic |
| `Engine.SkkEngine.FeedKana` | crates/skk-core/src/engine.rs:700-754 | The recursion ends, and state and commits are those of the automaton |
| `Engine.SkkEngine.HandleKana` | crates/skk-core/src/engine.rs:588-695 | Every key has its exact effect: texts committed, whether it is passed on, phase, pending romaji, frames; and the mode that is remembered |
| `Engine.SkkEngine.HandleCommand` | crates/skk-core/src/engine.rs:644-695 | A command character leads to its phase; a capital is the first character of a headword, whatever it does there |
| `Engine.SkkEngine.TypingRunsAutomaton` | crates/skk-core/src/engine.rs:588-754 | Over any input typed in a kana mode, the commits and the pending romaji are those of the automaton of the table |
| `Engine.SkkEngine.HandleCodeInput` | crates/skk-core/src/engine.rs:786-857 | Every key has its exact effect |
| `Engine.SkkEngine.DigitsAreDecoded` | crates/skk-core/src/engine.rs:786-857 | Any typed hex digits are kept in small letters, and Return commits what they stand for, if anything |
| `Engine.SkkEngine.HandleAbbrev` | crates/skk-core/src/engine.rs:861-924 | Abbrev text is typed, deleted, committed as it is, or converted; every key has its exact effect |
| `Engine.SkkEngine.HandleMidashi` | crates/skk-core/src/engine.rs:937-1324 | Every key has its exact effect, retried characters included, also where they start a conversion; Tab takes the completion and looks for the next |
| `Engine.SkkEngine.ReadingEffect` | crates/skk-core/src/engine.rs:1075-1324 | A character that just extends the reading does so by what the automaton makes of it, retry included, and commits nothing |
| `Engine.SkkEngine.EraseReading` | crates/skk-core/src/engine.rs:951-979 | BackSpace takes pending romaji, then kana, then leaves the headword; the completion follows the reading |
| `Engine.SkkEngine.ErasingEndsHeadword` | crates/skk-core/src/engine.rs:951-979 | A headword is gone after exactly one BackSpace per character and one more |
| `Engine.SkkEngine.EscapeUndoesSpace` | crates/skk-core/src/engine.rs:937-1736 | Escape after Space returns to the headword as it was converted, with nothing sent and nothing learned |
| `Engine.SkkEngine.HandleMidashiChar` | crates/skk-core/src/engine.rs:1075-1320 | Every character has its exact effect: triggers, prefix conversion, digits, capitals, and what the automaton takes |
| `Engine.SkkEngine.TakeKana` | crates/skk-core/src/engine.rs:1213-1262 | Kana that ends in a trigger converts what is before it and keeps the trigger for later |
| `Engine.SkkEngine.EndAtKanaTrigger` | crates/skk-core/src/engine.rs:1222-1243 | What is before a kana trigger is converted and the trigger is kept; without anything before it the trigger is committed |
| `Engine.SkkEngine.TypeReading` | crates/skk-core/src/engine.rs:1201-1320 | A character that goes to the automaton has its exact effect, retry included; q commits the other script |
| `Engine.SkkEngine.StartOkuri` | crates/skk-core/src/engine.rs:1146-1199 | A capital in a reading has its exact effect, retry included |
| `Engine.SkkEngine.OkuriBegins` | crates/skk-core/src/engine.rs:1146-1199 | What that amounts to: kana completed while a consonant stays pending belongs to the headword; finished okurigana is converted at once, also when the automaton asks for the letter again; otherwise it is pending; nothing is sent |
| `Engine.SkkEngine.HandleOkuri` | crates/skk-core/src/engine.rs:1325-1426 | Every key has its exact effect; Escape gives the headword up |
| `Engine.SkkEngine.OkuriLetter` | crates/skk-core/src/engine.rs:1365-1426 | Finished okurigana starts the conversion with the key of the state before it; otherwise it is pending |
| `Engine.SkkEngine.HandleSelecting` | crates/skk-core/src/engine.rs:1697-1932 | The outcome of every meaning that a key can have while candidates are offered, with phase, frames, dictionaries, trigger and actions |
| `Engine.SkkEngine.BackToHeadword` | crates/skk-core/src/engine.rs:1707-1736 | Aborting returns to the headword, drops the trigger and leaves frames and dictionaries alone |
| `Engine.SkkEngine.ShowSelection` | crates/skk-core/src/engine.rs:1755-1771 | The selection at another index is shown, as a page in listing mode |
| `Engine.SkkEngine.EnterRegisterFromSelecting` | crates/skk-core/src/engine.rs:2170-2192 | A fresh frame for the headword opens on top, and the trigger is dropped |
| `Engine.SkkEngine.ConfirmThen` | crates/skk-core/src/engine.rs:1773-1802 | A confirmed candidate is committed and learned, and then the key is deleted, passed on or swallowed |
| `Engine.SkkEngine.SuffixMode` | crates/skk-core/src/engine.rs:1904-1919 | The candidate is committed and a headword for a suffix begins |
| `Engine.SkkEngine.RetypeKey` | crates/skk-core/src/engine.rs:1921-1929 | The candidate is committed and learned, and then the key has its exact effect in the kana mode |
| `Engine.SkkEngine.StepBack` | crates/skk-core/src/engine.rs:1738-1771 | Cancel past the first candidate shows the previous display |
| `Engine.SkkEngine.AdvanceSelection` | crates/skk-core/src/engine.rs:1804-1838 | Space shows the next display or opens a frame for the headword |
| `Engine.SkkEngine.HandlePurgeConfirm` | crates/skk-core/src/engine.rs:2015-2118 | Only yes with Return purges, and the actions are empty exactly for the keys that the prompt ignores |
| `Engine.SkkEngine.PurgeReaches` | crates/skk-core/src/engine.rs:2063-2090 | For every user dictionary, bucket and stored word: a confirmed purge takes the displayed word out of the bucket of the headword and okurigana as typed and nothing else; so the template form that the candidate came from goes exactly if it is stored under that very headword, key and word |
| `Engine.SkkEngine.RenderCurrentPhase` | crates/skk-core/src/engine.rs:2362-2386 | Leaving raw mode always shows something and sends nothing else |
| `Engine.SkkEngine.DropFrame` | crates/skk-core/src/engine.rs:2244-2273 | Giving a frame up leaves the frames below it unchanged |
| `Engine.SkkEngine.TypeIntoFrame` | crates/skk-core/src/engine.rs:429-450 | Text typed into the frame goes to its cursor and nothing else changes |
| `Engine.SkkEngine.EditKey` | crates/skk-core/src/engine.rs:402-421 | Each editing key makes its edit in the innermost buffer only |
| `Engine.SkkEngine.CloseFrame` | crates/skk-core/src/engine.rs:2201-2273 | Return finishes a frame with text, whose word goes to the enclosing buffer, and gives an empty one up |
| `Engine.SkkEngine.HandleRegisterKey` | crates/skk-core/src/engine.rs:376-502 | Exactly which keys registration takes for itself, and the frames that each of them leaves, in the idle state, in ASCII mode and in the middle of a headword; any other key changes nothing here |
| `Engine.SkkEngine.Dispatch` | crates/skk-core/src/engine.rs:524-561 | Each key has the effect of its phase, or the outcome of its meaning in a selection or a prompt; at most one fresh frame opens on top |
| `Engine.SkkEngine.DispatchAndIntercept` | crates/skk-core/src/engine.rs:524-568 | With a frame open afterwards, also one that this key opened, nothing reaches the application, and the innermost buffer absorbs exactly what the phase did; otherwise the actions go out as they are |
| `Engine.SkkEngine.HandlePress` | crates/skk-core/src/engine.rs:349-568 | Exactly which keys go to the phase; what they do is kept by an open frame or goes out; raw mode freezes everything; toggles; confinement and the stack discipline |
| `Engine.SkkEngine.ProcessKey` | crates/skk-core/src/engine.rs:286-298 | For every key in every reachable state: invariant, valid preedits, stack discipline of frames, confinement with a frame open before or after, text kept in the innermost buffer, raw mode, and the exact condition for an empty answer |
| `EngineExamples.PromptIgnoresEscape` | crates/skk-core/src/engine.rs:2015-2118 | A run from a new engine to a purge prompt that gives Escape an empty answer |
| `Engine.SkkEngine.ProcessKeys` | crates/skk-core/src/engine.rs:286-298 | The same along a whole run of keys, with arbitrary changes of the shared dictionaries between them |
| `Engine.SkkEngine.TypingIsKept` | crates/skk-core/src/engine.rs:2277-2315 | Over a run of typing with a frame open, the innermost buffer gains at its cursor exactly the texts that the keys commit, in order, and nothing else of the frames changes |
| `Engine.SkkEngine.FrameTakesIn` | crates/skk-core/src/engine.rs:2201-2315 | Over every run of any inputs during which a frame stays open: the frames beneath it are untouched, and of the frame itself only the buffer changes; it takes in, in order, exactly what the phase did with each key that met it innermost, selections and conversions included, what registration made of the keys it took, and the word of each frame finished above it |
| `Engine.SkkEngine.NestedFrameReturns` | crates/skk-core/src/engine.rs:2201-2273 | A frame opened over others and closed by the last input of a run, whatever happens in between, leaves them as they were, but for its word at the cursor beneath it exactly if that input finished it |
| `Engine.SkkEngine.OpenFramesHoldEverything` | crates/skk-core/src/engine.rs:2277-2315 | While a frame is open after every key and raw mode is off, no text, key or deletion reaches the application, and every key gets an answer |
| `Cooldown.CooldownSequence` | crates/skk-ipc/src/proxy/reconnect.rs:121-126 | The delay starts at two seconds, doubles, and stays at half a minute from the fifth failure on |
| `Cooldown.CooldownMonotone` | crates/skk-ipc/src/proxy/reconnect.rs:121-126 | More failures never shorten the delay, which stays between its bounds |
| `Reconnect.ReconnectingClient.MarkFailed` | crates/skk-ipc/src/proxy/reconnect.rs:74-88 | A recorded failure starts a cooldown and forgets every session id |
| `Reconnect.ReconnectingClient.MarkRecovered` | crates/skk-ipc/src/proxy/reconnect.rs:91-95 | Recovery ends the cooldown |
| `Reconnect.ReconnectingClient.CreateHandle` | crates/skk-ipc/src/proxy/reconnect.rs:213-234 | A handle is always given out; in cooldown nothing is sent; a failure is recorded |
| `Reconnect.ReconnectingClient.DestroyHandle` | crates/skk-ipc/src/proxy/reconnect.rs:241-251 | Only a session that the daemon may know is destroyed there, and not in cooldown |
| `Reconnect.ReconnectingClient.EnsureDaemonSession` | crates/skk-ipc/src/proxy/reconnect.rs:319-346 | An existing id is used, a missing one is made, and the two errors leave the state as stated |
| `Reconnect.ReconnectingClient.RecreateDaemonSession` | crates/skk-ipc/src/proxy/reconnect.rs:350-360 | A new id replaces the old one of that handle; every other entry stays, and without an id all do |
| `Reconnect.ReconnectingClient.ProcessKey` | crates/skk-ipc/src/proxy/reconnect.rs:265-314 | In cooldown nothing is sent; otherwise at most two sends, the second only after a session-invalid reply; other failures are recorded without a retry |
| `ReconnectSafety.LocksKept` | crates/skk-ipc/src/proxy/reconnect.rs:62-383 | Every step keeps it: each thread holds exactly the guards of its control point, each dropped where its scope ends, and no mutex has two holders |
| `ReconnectSafety.OneGuardEach` | crates/skk-ipc/src/proxy/reconnect.rs:62-383 | Hence no thread holds two guards, and no two threads a guard of one mutex |
| `ReconnectSafety.DataIsGuarded` | crates/skk-ipc/src/proxy/reconnect.rs:62-383 | The session table, the failure record and the connection are touched only by a thread that holds their mutex |
| `ReconnectSafety.HoldersAreNeverStuck` | crates/skk-ipc/src/proxy/reconnect.rs:62-383 | Whoever holds a guard reaches the end of its scope in at most two steps of its own, and then the mutex is free |
| `ReconnectWakeUp.StepStalls` | crates/skk-ipc/src/proxy/reconnect.rs:74-148 | One step: the monitor is stalled afterwards exactly if it was and the step does not relieve it, or the step panics a thread that alone owed the notification |
| `ReconnectWakeUp.RunStallsExactly` | crates/skk-ipc/src/proxy/reconnect.rs:74-148 | The same over every run |
| `ReconnectDelivery.DeliveriesKept` | crates/skk-ipc/src/proxy/reconnect.rs:265-314 | Every step keeps the record of sends, rejections, refusals and applied keys consistent |
| `ReconnectDelivery.SentKeeps` | crates/skk-daemon/src/session.rs:92-112 | A send reaches an engine or is rejected, and touches no other key |
| `ReconnectDelivery.IsolatedKept` | crates/skk-daemon/src/session.rs:61-81 | Every step keeps session ids of the current daemon lifetime with their handles |
| `ReconnectRuns.EveryRunIsSynchronised` | crates/skk-ipc/src/proxy/reconnect.rs:62-383 | For every interleaving: at most one guard per thread and one holder per mutex, no holder is stuck, and the monitor is parked with a failure on record and nobody about to wake it exactly if a thread panicked between recording a failure and notifying, nobody else owed it, and nothing relieved the monitor since |
| `ReconnectRuns.SafeKept` | crates/skk-ipc/src/proxy/reconnect.rs:62-383 | Every step keeps all invariants together |
| `ReconnectRuns.RunsStaySafe` | crates/skk-ipc/src/proxy/reconnect.rs:62-383 | Hence every run does |
| `ReconnectRuns.CalmKept` | crates/skk-ipc/src/proxy/reconnect.rs:241-346 | Every disciplined step keeps the table entries that key calls rely on |
| `ReconnectRuns.EveryRunDeliversAtMostOnce` | crates/skk-ipc/src/proxy/reconnect.rs:265-314 | For every interleaving, lost message and restart: at most once per key, at most two sends, the second only after the rejection, none when refused, and the right engine within a daemon lifetime |
| `ReconnectRuns.DisciplinedRunsNeverStall` | crates/skk-ipc/src/proxy/reconnect.rs:241-346 | If no handle is destroyed while a key call on it is in progress, no thread panics and the monitor never stalls |
| `ReconnectRuns.StallNeedsLostStore` | crates/skk-ipc/src/proxy/reconnect.rs:74-346 | Every stall of the monitor is preceded by a session stored for a destroyed handle |
| `ReconnectRuns.PanicsExactly` | crates/skk-ipc/src/proxy/reconnect.rs:319-346 | After every run: the session table is poisoned exactly if a thread stored a session for a destroyed handle, and a thread has panicked exactly if it did that itself or locked the poisoned table |
| `ReconnectExamples.DestroyedHandlePanics` | crates/skk-ipc/src/proxy/reconnect.rs:213-346 | A run from the start in which a lost store panics its thread and poisons the table |
| `ReconnectExamples.PanicStallsMonitor` | crates/skk-ipc/src/proxy/reconnect.rs:74-148 | A run from the start that leaves the monitor stalled |
| `ReconnectFailure.AfterFailure` | crates/skk-ipc/src/proxy/reconnect.rs:74-88 | After a handled failure and any further run, every id in the table is of a session made later, or some thread was already on its way to write it there |
| `ReconnectFailure.OldIdsExactly` | crates/skk-ipc/src/proxy/reconnect.rs:74-346 | For every reachable state in which the ids are forgotten: an older id stands in the table after some further run exactly if a thread is already on its way to write it, into a handle that is in the table or that this thread is still to create |
| `ReconnectExamples.OldIdOutlivesFailure` | crates/skk-ipc/src/proxy/reconnect.rs:74-234 | A run in which such a thread writes the id of a daemon that is gone after the failure was handled |
| `ReconnectExamples.OldIdReachesNewEngine` | crates/skk-daemon/src/session.rs:42-64 | Across a restart a stale id can reach the engine of another handle |
| `Wayland.PressesAreSeparated` | crates/adapter-wayland/src/server.rs:745-820 | What the history condition means: an accepted release between two forwarded presses of a key, and no release with the commit serial |
| `Wayland.DownMeansOpenOrLost` | crates/adapter-wayland/src/server.rs:408-476 | A key that is down in the application has an open press, or its release passed the filter and was not forwarded |
| `Wayland.GraceOutlastsTick` | crates/adapter-wayland/src/server.rs:199-205 | The grace period outlasts the next tick exactly for rates other than one per second, and two ticks exactly from four per second |
| `Wayland.WaylandState.StopAllRepeat` | crates/adapter-wayland/src/server.rs:289-298 | The repeat ends and its key is no longer held; nothing is sent |
| `Wayland.WaylandState.EndRepeat` | crates/adapter-wayland/src/server.rs:289-298 | A repeat that ends lets go of its key, and only one of a passed-on key would send a release |
| `Wayland.WaylandState.StartRepeat` | crates/adapter-wayland/src/server.rs:209-286 | The previous repeat ends; only a consumed key repeats, at a non-zero rate |
| `Wayland.WaylandState.OnKey` | crates/adapter-wayland/src/server.rs:408-476 | Whether the key was consumed, and that it is forwarded only if passed on, wanted and active |
| `Wayland.WaylandState.FilterPress` | crates/adapter-wayland/src/server.rs:753-772 | A press passes when the key is not held or is a re-tap during the grace period |
| `Wayland.WaylandState.FilterRelease` | crates/adapter-wayland/src/server.rs:773-792 | A release of a repeating key only sets the deadline; of a key that is not held it is ignored |
| `Wayland.WaylandState.Key` | crates/adapter-wayland/src/server.rs:745-820 | What a key event changes, forwards and begins to repeat; after an accepted release a key is still down in the application exactly if it was and the release was not forwarded |
| `Wayland.WaylandState.Deliver` | crates/adapter-wayland/src/server.rs:794-820 | A key that passed the filter is forwarded or begins to repeat, and nothing else |
| `Wayland.WaylandState.Handle` | crates/adapter-wayland/src/server.rs:735-875 | Every event keeps the invariant and only adds to the history |
| `Wayland.WaylandState.Modifiers` | crates/adapter-wayland/src/server.rs:836-872 | A modifier change stops the repeat |
| `Wayland.WaylandState.Deactivate` | crates/adapter-wayland/src/server.rs:649-680 | Losing focus ends the repeat and keeps the other held keys |
| `Wayland.WaylandState.CheckDeadline` | crates/adapter-wayland/src/server.rs:979-995 | The repeat ends when the deadline has passed, and not before |
| `Wayland.WaylandState.RepeatTicks` | crates/adapter-wayland/src/server.rs:1033-1075 | Ticks forward nothing, and the first one that is not consumed ends the repeat |
| `Wayland.WaylandState.Run` | crates/adapter-wayland/src/server.rs:745-820 | Over every run of events: a repeat is for a consumed held key, a pending stop implies a repeat, presses are separated, no synthetic release, and a key down in the application is held or has a lost release |
| `Wayland.WaylandState.LosesRelease` | crates/adapter-wayland/src/server.rs:408-476 | A daemon error at the release leaves a key down in the application that nobody holds |

## Left out

- Engine.SkkEngine.StartConversion: it does not claim that a trigger is cleared when registration begins, because the code keeps it.
- Wayland.WaylandState.StartRepeat: the timer thread and its pipe are not modelled; ticks arrive as events at any time.
- Priorities of dictionaries: the list of dictionaries is given in order. What other sessions do to shared ones is any change between two keys.
- Read-only dictionaries: their lookup and completion are arbitrary functions; the sorted order of `FileDict` completion is not modelled.
- File reading and writing, encodings and paths: only the functions between text and map.
- JIS and Unicode code input: decoding is a parameter.
- Roman, circled, full-width, positional and shogi numerals: conversion of one run is a parameter of the template functions; only kanji and daiji numerals by place value are modelled.
- Byte indices into dictionary text: slices are by character.
- Application names in daemon sessions, logging, and the save that the daemon makes after each key.
- Handle numbers wrap around at 2^32 in the code; here they do not.
- The shutdown flag of the monitor: it is never set in the code.
- D-Bus, Wayland and X11 transports, keymaps, candidate windows, status display, configuration, the GTK, Qt and XIM adapters and all other front ends.
- The concrete kana tables: a table is any list of rules.
