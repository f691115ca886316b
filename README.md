# PixelBot core, modelled in Dafny

PixelBot is a Discord bot that reads task lists from Google Sheets and posts
them to a channel or sends them by direct message. The sheets are the
department sheet and the Notaría, Tubos and Fisio sheets. Tasks are grouped
by CMMI area or by the people assigned, and split into tasks due today,
overdue tasks and future tasks. This project models the bot's data path once
the Sheets and Discord calls are taken off:

- **Message chunker** (`chunker.dfy`). `chunkLines` and its three inline
  copies pack lines into messages of at most 2000 UTF-16 code units.
- **Name resolver** (`names.dfy`). `normalize`, the longest-first
  `sortedNames`, and `extractIdsFromCell`. The last one finds the mapped names
  in a cell as whole words, cuts each match out, and returns the ids without
  repeats.
- **Row loaders** (`rows.dfy`, `tasks.dfy`, `tareas.dfy`, `dates.dfy`,
  `sorting.dfy`). These are the loops of `fetchTasks` and `fetchTareas`. They:
  - pad each row;
  - keep rows with an activity, a date and the status "no realizado";
  - build the date the way `new Date(y, m - 1, d)` does;
  - split the rows into today, pending and future;
  - sort pending and future stably by date.
- **Mention text** (`mentions.dfy`). The names-first and ids-first mention
  choices, and the `groupBy` key.
- **Line builders** (`listing.dfy`, `senders.dfy`, `mine.dfy`).
  - The per-category sections of the department reports.
  - `groupBy` with `SIN_ASIGNAR` pinned first in `sendGeneric`, and not pinned
    in `sendGenericToUser`.
  - The area filter of `sendArea` and `sendAreaToUser`.
  - The per-user listing of `sendMyPending`.
- **Shared helpers** (`text.dfy`, `seqs.dfy`, `wrappers.dfy`). The JavaScript
  string operations used (`.length`, `trim`, `split`, `join`, case mapping)
  and generic sequence lemmas.

Line numbers below refer to `index.js`, the bot's only source file.

Every loop of the source is a Dafny `method` with a `for` or `while` loop. Its
`ensures` ties the result to a specification function, and the properties
the source promises are proved as lemmas about that function. Data the
source fetches is given to the model as parameters:
- the rows of a sheet, as `seq<seq<string>>`;
- the contents of `mappings.json`, as a key list and a map;
- today's day number;
- the date formatter.

What a send delivers is modelled as the sequence of messages, in order.

Dates are `Option<int>`: a number of days since 1970-01-01, or `None` for an
Invalid Date (its `getTime()` is `NaN`). A `NaN` time fails both comparisons
at index.js:127-128, so such a task lands in the future bucket.

## Model

| member | source | states |
|---|---|---|
| Text.TrimStart | index.js:117 | what `trim` removes at the front: a suffix of the input, with only whitespace cut away and the first character left not whitespace |
| Text.TrimEnd | index.js:117 | what `trim` removes at the back: a prefix of the input, with only whitespace cut away and the last character left not whitespace |
| Text.TrimEmpty | index.js:117-118 | a cell trims to `''` exactly when it is all whitespace, so `if (!act) continue` drops exactly the blank cells |
| Text.Split | index.js:120-121 | `split` on one character gives at least one part, and no part holds the separator |
| Text.SplitJoin | index.js:120 | joining the parts of `split` with the separator gives back the original text |
| Text.ToLower | index.js:124 | `toLowerCase` keeps the length and maps each character on its own |
| Text.JsLenAppend | index.js:58 | `.length` of a concatenation is the sum of the lengths |
| Text.JsLenBmp | index.js:58 | outside the astral planes `.length` counts characters |
| Text.JsLenZero | index.js:65 | `.length` is 0 exactly for the empty string |
| Chunker.ChunkLines | index.js:53-67 | `chunkLines` as a fold over the lines; what it guarantees is stated by Chunker.ChunkLinesFit, Chunker.ChunkLinesRuns, Chunker.ChunkLinesJoin, Chunker.ChunkLinesNonEmpty and Chunker.LeadingEmptyChunk |
| Chunker.ChunkLinesLoop | index.js:53-67 | the loop returns `chunkLines(lines, maxLen)`, and every chunk is at most `maxLen` long or is exactly one input line |
| Chunker.SendChunked | index.js:246-256 | the inline loop (also at index.js:330-339 and 378-387), which tests `(chunk + '\n' + line).length > 2000`, sends exactly `chunkLines(lines, 2000)`, in order |
| Chunker.ChunkLinesEmpty | index.js:53-67 | no lines give no chunks |
| Chunker.FoldFits | index.js:56-65 | from any loop state whose chunks fit, every chunk produced fits |
| Chunker.ChunkLinesFit | index.js:56-65 | every chunk has length at most `maxLen` or is one input line passed through whole |
| Chunker.FoldKeepsDone | index.js:59 | chunks already pushed are never changed |
| Chunker.FoldNonEmpty | index.js:59-65 | once a chunk has been pushed or is pending, at least one message goes out |
| Chunker.ChunkLinesNonEmpty | index.js:53-67 | lines that open with a non-empty line give at least one chunk |
| Chunker.LeadingEmptyChunk | index.js:58-59 | a first line of length at least `maxLen` makes the first chunk `''`, because the separator is counted even when `chunk` is empty |
| Chunker.FoldJoin | index.js:56-65 | with no empty line, the chunks joined with `'\n'` equal the pending chunk joined with the remaining lines |
| Chunker.ChunkLinesFirstJoined | index.js:58-62 | a first line shorter than `maxLen` becomes the pending chunk without a push |
| Chunker.ChunkLinesJoin | index.js:56-65 | with no empty line and a first line shorter than `maxLen`, no chunk is empty, and joining the chunks with `'\n'` gives the joined lines, so lines stay in order and none is split |
| Chunker.NonEmptySnoc | index.js:59-66 | one more chunk adds itself to the non-empty chunks exactly when it is not `''` |
| Chunker.JoinLinesSnoc | index.js:62 | appending a line to a non-empty run joins it on with `'\n'`, as `${chunk}\n${line}` does |
| Chunker.FoldRuns | index.js:56-66 | from a pending chunk that joins the run `cur`, the non-empty chunks are those pushed, then the joins of non-empty consecutive runs that together are `cur` followed by the remaining lines with some `''` lines deleted |
| Chunker.PushRun | index.js:58-60 | pushing the pending chunk closes its run, and an empty chunk closes none |
| Chunker.DropsEmptyStep | index.js:58-62 | a line is either kept in order or, when it is `''`, dropped |
| Chunker.ChunkLinesRuns | index.js:53-67 | for all lines, including empty ones: apart from empty chunks, the chunks are the `'\n'`-joins of non-empty consecutive runs of the input lines, in order, with only `''` lines lost, so no line is split or reordered |
| Chunker.DropsEmptyKeeps | index.js:53-67 | deleting only `''` lines keeps every non-empty line, in order |
| Chunker.EmptyLineSwallowed | index.js:62 | an empty line that starts a chunk disappears: `['', 'a']` gives `['a']` |
| Chunker.OversizedLineExample | index.js:58-60 | `['abc']` with limit 3 gives `['', 'abc']` |
| Dates.DigitPrefix | index.js:122 | the length of the longest run of leading decimal digits |
| Dates.ParseInt | index.js:122 | `parseInt(s, 10)` is a number exactly when a digit follows the leading whitespace and the optional sign |
| Dates.Decimal | index.js:122 | the decimal text of a number, made only of digits |
| Dates.DecimalValue | index.js:122 | the digits of `Decimal(n)` have the value `n` |
| Dates.DigitPrefixAll | index.js:122 | a string of digits is its own digit prefix |
| Dates.ParseIntDecimal | index.js:122 | `parseInt` reads back every non-negative number written in decimal |
| Dates.DaysFromCivil | index.js:123 | the day number of the first of a month in the proleptic Gregorian calendar; Dates.EpochIsDayZero, Dates.MakeDateNextDay and Dates.MakeDateMonthCarry state its calendar properties |
| Dates.MakeDate | index.js:123 | `new Date(y, m - 1, d)` is Invalid when any part is `NaN`, and a valid date lies within ECMAScript's time range |
| Dates.MakeDateNextDay | index.js:123 | the next day of the month is the next day number, even past the month's end |
| Dates.MakeDateMonthCarry | index.js:123 | month 13 is January of the next year |
| Dates.EpochIsDayZero | index.js:123 | 1 January 1970 is day 0 |
| Dates.BucketOf | index.js:127-129 | a task is today's exactly when its date is today, pending exactly when its date is valid and earlier, and future otherwise, including an Invalid Date |
| Dates.InBucket | index.js:126-129 | a bucket holds no more items than the input |
| Dates.InBucketSnoc | index.js:126-129 | pushing one item extends exactly the bucket it belongs to |
| Dates.InBucketMembers | index.js:126-129 | every item of a bucket comes from the input and belongs to that bucket |
| Dates.PartSnoc | index.js:126-129 | one more item adds itself to the multiset of its own bucket and leaves the others unchanged |
| Dates.BucketsPartition | index.js:126-129 | the three buckets together are a permutation of the input, so each item lands in exactly one bucket |
| Sorting.SortBy | index.js:132-133 | the stable sort by date; Sorting.SortBySorted, Sorting.SortByStable and Sorting.SortByIdempotent state that it is an ordered, stable permutation |
| Sorting.InsertPerm | index.js:132-133 | inserting is a permutation |
| Sorting.InsertElems | index.js:132-133 | inserting adds only the inserted element |
| Sorting.InsertSorted | index.js:132-133 | inserting into a sorted sequence keeps it sorted |
| Sorting.SortedTail | index.js:132-133 | the tail of a sorted sequence is sorted |
| Sorting.SortBySorted | index.js:132-133 | `sort((a, b) => a.fecha - b.fecha)` returns a permutation of its input in ascending date order |
| Sorting.InsertStable | index.js:132-133 | inserting keeps the order of items with equal dates |
| Sorting.SortByStable | index.js:132-133 | items with equal dates keep their input order, because the sort is stable |
| Sorting.SortByIdempotent | index.js:199 | sorting a sorted sequence changes nothing |
| Rows.Pad | index.js:116 | padding keeps every existing cell, only appends `''`, and reaches the width |
| Rows.PadCells | index.js:116 | after padding, every cell below the width reads as before (`''` past the row's end) |
| Rows.PadRow | index.js:165 | the `while (row.length < width) row.push('')` loop gives the padded row |
| Rows.Bucketize | index.js:126-134 | the loaders' split into today, pending and future, the last two sorted; Rows.BucketizeSplits, Rows.BucketizeDates, Rows.BucketizeSorted and Rows.BucketizeStable state its properties |
| Rows.BucketizeSplits | index.js:126-134 | the loader's today, pending and future arrays together are a permutation of the accepted rows |
| Rows.BucketizeDates | index.js:127-129 | today's items are dated today, pending items are dated and earlier, and future items are later or have an Invalid Date |
| Rows.BucketizeSorted | index.js:132-133 | pending and future are in ascending date order |
| Rows.BucketizeStable | index.js:132-133 | within pending and future, items with the same date keep row order |
| Rows.ResortPending | index.js:199 | sorting the already sorted pending bucket again, as `sendDepartment` does, changes nothing |
| Names.Normalize | index.js:82-86 | `normalize` leaves no combining mark and no upper-case ASCII letter, and never makes a string longer |
| Names.NormalizeEach | index.js:82-86 | without combining marks, `normalize` maps each character to its lower-cased base letter |
| Names.NormalizeIdempotent | index.js:82-86 | normalizing twice is normalizing once |
| Names.SortedNames | index.js:87 | `sortedNames` is a permutation of the mapping's keys with lengths non-increasing |
| Names.SortedNamesDistinct | index.js:87 | every name is tried exactly once, and each is a key of the map |
| Names.FindFrom | index.js:93-94 | the first whole-word match at or after a position, or none at all |
| Names.FindWord | index.js:93-94 | `\bname\b` finds the leftmost whole-word match, and `null` means no position matches |
| Names.Scan | index.js:91-99 | the loop finds at most one id per name tried |
| Names.ScanFoundIds | index.js:96 | every id found is the id of a name tried |
| Names.ScanFoundMatched | index.js:91-99 | an id is found exactly when a name with that id matches, as a whole word, the text left by the cuts of the names tried before it |
| Names.ScanFoundSound | index.js:93-96 | every id found comes from a name whose `re.exec(rem)` matched when it was tried |
| Names.ScanFoundComplete | index.js:93-96 | every name whose `re.exec(rem)` matched when it was tried has its id found |
| Names.ScanSnocFound | index.js:93-98 | trying one more name appends its id exactly when it matches what is left, and otherwise adds nothing |
| Names.StepMatchesPrefix | index.js:91-99 | a name tried earlier sees the same remaining text whatever names come after it |
| Names.ScanFindsNothing | index.js:91-99 | nothing is found exactly when no name tried occurs as a whole word in the text, and then `rem` is left unchanged |
| Names.ScanFirstFound | index.js:91-99 | the first id found is that of the first name tried that occurs as a whole word in the original text |
| Names.FirstFoundKept | index.js:91-99 | a later name never changes the first id found |
| Names.FirstFoundLast | index.js:93-96 | when nothing was found before the last name, the first id found is the last name's, and no earlier name occurs in the text |
| Names.NothingInEmpty | index.js:93 | `\b…\b` matches nothing in an empty text |
| Names.ScanAfterAllCut | index.js:91-99 | once the whole text has been cut away, the names still to try find nothing more |
| Names.WholeTextOneName | index.js:91-99 | a text that is exactly one name, starting and ending with a word character, and that no earlier name matches, gives that name's id alone |
| Names.ExtractIds | index.js:88-101 | the result has no repeats, every id is `nameToId[n]` for a key `n`, and there are no more ids than names |
| Names.ExtractIdsEmpty | index.js:88-101 | `extractIdsFromCell` returns `[]` exactly when no key of the mapping, normalized, occurs as a whole word in the normalized cell |
| Names.ExtractIdsMatched | index.js:88-101 | an id is returned exactly when some name with that id, tried in `sortedNames` order, matches what the earlier matches left of the normalized cell |
| Names.ExtractIdsOrder | index.js:88-101 | the ids come out in the order in which the loop first pushed each of them |
| Names.ExtractIdsFirst | index.js:88-101 | the first id returned belongs to the first name in `sortedNames` order that occurs as a whole word in the normalized cell |
| Names.ExtractIdsWholeName | index.js:88-101 | a cell that normalizes to one name, starting and ending with a word character, and that no earlier name matches, gives exactly that name's id |
| Names.ExtractIdsFromCell | index.js:88-101 | the loop over `sortedNames` that rewrites `rem` returns `ExtractIds`, without repeats |
| Seqs.Dedup | index.js:100 | `[...new Set(ids)]` has no repeats and holds exactly the elements of `ids`; Seqs.DedupOrder states its order |
| Seqs.FirstIndex | index.js:100 | the first position at which an element occurs |
| Seqs.FirstIndexSnoc | index.js:100 | appending leaves earlier first occurrences in place |
| Seqs.FirstIndexNew | index.js:100 | a new element first occurs where it is appended |
| Seqs.DedupOrder | index.js:100 | `new Set` keeps insertion order: the result lists the elements in the order of their first occurrences |
| Seqs.DedupFirst | index.js:100 | the first element of `ids` stays first after `new Set` |
| Names.ExampleSorted | index.js:87 | the keys "Al" and "Al Bo" are tried as "Al Bo", then "Al" |
| Names.ExampleLetters | index.js:82-86 | how each letter of the example normalizes, including ó to o |
| Names.ExampleNormalizedCell | index.js:89 | "Al Bó" normalizes to "al bo" |
| Names.ExampleNormalizedNames | index.js:92 | the two names normalize to "al bo" and "al" |
| Names.ExampleScan | index.js:91-99 | "Al Bo" matches and is cut out, so "Al" finds nothing |
| Names.LongestNameWins | index.js:88-101 | in "Al Bó" only the longer name is found, and the shorter name inside it adds no id |
| Tasks.Width | index.js:116 | the padded width covers all four columns read |
| Tasks.TaskOfRow | index.js:115-126 | one pass of `fetchTasks`' loop body: the task a padded row yields, or none where it `continue`s; Tasks.TaskOfRowAccepts states when it yields one |
| Tasks.TaskOfRowAccepts | index.js:115-126 | a row yields a task exactly when its trimmed activity is non-empty, its date cell has exactly three `/`-parts and its status is open; the task holds the trimmed activity, the ids of the assignee cell and the date of the parts |
| Tasks.AcceptedFromRows | index.js:115-130 | every task comes from some row, has an activity and names each person once |
| Tasks.AcceptedSnoc | index.js:115-130 | one more row adds its task, if any, at the end |
| Tasks.ClassifyRow | index.js:116-124 | the loop body up to the bucket choice yields the row's task, or skips the row |
| Tasks.FetchTasks | index.js:104-135 | `fetchTasks` returns the accepted rows split into today, pending and future, the last two sorted by date |
| Tareas.GroupMapOf | index.js:145-148 | every value of `groupMap` is one of the groups |
| Tareas.CodeOf | index.js:166 | the group code of a row: the first space-separated word of the trimmed cell, upper-cased; Tareas.GroupOf states that the group it selects is always a category |
| Tareas.GroupOf | index.js:166-167 | `groupMap[code] \|\| 'Otros'` is always one of `[...GROUPS, 'Otros']` |
| Tareas.Codes | index.js:145-148 | the upper-cased group names, one per group |
| Tareas.GroupMapFinds | index.js:145-148 | with distinct codes, `groupMap` maps each group's upper-cased name back to the group |
| Tareas.TrimmedNames | index.js:171 | no more names than parts, and no name is empty |
| Tareas.LookupIds | index.js:172 | no more ids than names, and each id is the non-empty value of a name found in the map |
| Tareas.DateOfRaw | index.js:175-176 | a date with fewer than three `/`-parts is Invalid, since no part-count check is made |
| Tareas.TareaOfRow | index.js:164-181 | every task the loader builds is well formed: its group is a category, it has an activity, and it has no more ids than names and no ids without names |
| Tareas.TareaOfRowAccepts | index.js:164-181 | a row yields a task exactly when its trimmed activity and trimmed date are non-empty and its status is open; the task holds the group of column 0's first word, the activity, the names of column 7, the ids `nameToId` gives those names, and the date of column 8 |
| Tareas.AcceptedTareasWellFormed | index.js:164-185 | every task of the department sheet is well formed |
| Tareas.AcceptedTareasSnoc | index.js:164-185 | one more row adds its task, if any, at the end |
| Tareas.ClassifyTareaRow | index.js:165-180 | the loop body up to the bucket choice yields the row's task, or skips the row |
| Tareas.FetchTareas | index.js:150-190 | `fetchTareas` returns the accepted rows split into today, pending and future, the last two sorted by date |
| Mentions.Placeholders | index.js:212-214 | the placeholders `SIN ASIGNAR`, `SIN_ASIGNAR` and the two "Formato incorrecto" wordings differ, and none opens like a mention |
| Mentions.MentionsOf | index.js:216 | one `<@id>` per id, in order |
| Mentions.MentionList | index.js:216 | the joined mentions are empty exactly for no ids, and otherwise open with `<@` |
| Mentions.JoinPrefix | index.js:216 | a join opens with its first part |
| Mentions.MentionNamesFirst | index.js:210-217 | `SIN ASIGNAR` exactly when there are no names, the long "Formato incorrecto" exactly when there are names but no ids, and mentions exactly otherwise |
| Mentions.MentionIdsFirst | index.js:354-356 | mentions exactly when there are ids, "Formato incorrecto" exactly when there are names but no ids, and `SIN ASIGNAR` exactly when there are neither |
| Mentions.MentionChoicesAgree | index.js:210-217 | when ids imply names, as for every department task, the two choices pick the same outcome |
| Mentions.MentionChoicesDiffer | index.js:354-356 | without that condition they part ways: ids but no names |
| Mentions.KeyOf | index.js:280-282 | the `groupBy` key is `SIN_ASIGNAR` exactly when a task has no ids, and otherwise opens with `<@` |
| Listing.Bold | index.js:208 | `**name**` is a header line |
| Listing.Items | index.js:209-219 | one item line per task, in order |
| Listing.ItemsHas | index.js:209-219 | every task has its item line |
| Listing.AppendItems | index.js:209 | the push loop appends the items |
| Listing.Sections | index.js:205-220 | the per-category sections; Listing.SectionsOpenBold, Listing.SectionsSize and Listing.SectionsListEachOnce state their shape and that each task is listed once |
| Listing.AppendSections | index.js:205-220 | the per-category loop appends the sections |
| Listing.SectionsOpenBold | index.js:207-208 | non-empty sections open with a bold header |
| Listing.Occupied | index.js:206-207 | the categories that get a header are exactly those with tasks |
| Listing.SectionsSize | index.js:205-220 | the sections have one line per listed task plus one per non-empty category |
| Listing.SectionsListEachOnce | index.js:205-220 | with distinct categories that cover every task, every task is listed exactly once under its own category, with one header per non-empty category |
| Listing.GroupKeys | index.js:277-287 | the map's keys have no repeats, and the first one is the first task's key |
| Listing.GroupKeysCover | index.js:279-284 | every task's key is a key of the map |
| Listing.GroupKeysFromTasks | index.js:283 | every key of the map belongs to some task |
| Listing.GroupKeysSnoc | index.js:283 | a task adds its key at the end exactly when it is new |
| Listing.UnseenKeyEmpty | index.js:283 | a key not seen yet has no tasks |
| Listing.FilterKeyNext | index.js:284 | one more task joins exactly its own key's group |
| Listing.GroupStep | index.js:279-285 | one pass of `groupBy` keeps the map equal to the keys in first-seen order, each with its tasks in order |
| Listing.GroupBy | index.js:277-287 | `groupBy` returns exactly the first-seen keys, each with exactly its tasks in input order |
| Listing.KeyBlocksAppend | index.js:298-303 | one more key adds its block at the end |
| Listing.KeyBlocksSize | index.js:298-303 | the blocks have one line per task plus a header and a blank line per key |
| Listing.PinnedKeysReorder | index.js:289-303 | pinning moves `SIN_ASIGNAR` to the front, keeps the keys distinct, gains or loses no key, and leaves the other keys in order |
| Listing.Pinned | index.js:289-303 | `sendGeneric`'s layout with `SIN_ASIGNAR` first; Listing.PinnedListsEachOnce and Listing.PinnedOpensUnassigned state its properties |
| Listing.Unpinned | index.js:483-492 | `sendGenericToUser`'s layout, every key in first-seen order; Listing.UnpinnedListsEachOnce and Listing.UnpinnedOpensFirstKey state its properties |
| Listing.PinnedSize | index.js:289-303 | the pinned layout is as long as the blocks of the pinned key order |
| Listing.PinnedListsEachOnce | index.js:289-303 | the pinned layout lists every task exactly once, with a header and a blank line per key |
| Listing.SameKeysSameSize | index.js:289-303 | two repeat-free key lists with the same keys are equally long |
| Listing.UnpinnedListsEachOnce | index.js:483-492 | the unpinned layout lists every task exactly once, with a header and a blank line per key |
| Listing.PinnedOpensUnassigned | index.js:291-297 | when some task has no ids, the pinned layout opens with `**SIN ASIGNAR**`, those tasks in order and a blank line |
| Listing.UnpinnedOpensFirstKey | index.js:488-489 | the unpinned layout opens with the first task's key, whatever it is |
| Listing.AppendBlock | index.js:300-302 | one key's header, items and blank line are appended |
| Listing.AppendOtherBlock | index.js:298-303 | one pass of the key loop skips `SIN_ASIGNAR` and appends any other key's block |
| Listing.OtherBlocksStep | index.js:298-303 | one more key of the loop adds its block unless it is `SIN_ASIGNAR` |
| Listing.AppendOtherBlocks | index.js:298-303 | the key loop appends the blocks of every key except `SIN_ASIGNAR`, in first-seen order |
| Listing.EmitPinned | index.js:290-303 | `groupBy`, then the `SIN_ASIGNAR` block, then the others, appends the pinned layout |
| Listing.AppendBlocks | index.js:488-492 | the key loop appends every key's block in order |
| Listing.EmitUnpinned | index.js:483-492 | `groupBy`, then every key in first-seen order, appends the unpinned layout |
| Senders.DepartmentLines | index.js:201-242 | `sendDepartment`'s lines; Senders.DepartmentListsEachOnce and Senders.DepartmentQuiet state what they list and when nothing is sent |
| Senders.BuildDepartmentLines | index.js:201-242 | `sendDepartment`'s lines: the title, today's sections, then the pending header and sections when anything is overdue |
| Senders.SendDepartment | index.js:193-262 | `sendDepartment` sends nothing when nothing is due today or overdue, and otherwise the chunks of its lines |
| Senders.DepartmentQuiet | index.js:196 | `sendDepartment` is silent exactly when nothing is due today and nothing is overdue |
| Senders.CategoriesDistinct | index.js:140-143 | the twenty category names are distinct |
| Senders.DepartmentListsEachOnce | index.js:205-242 | every task due today and every overdue task is listed exactly once under its group, and each list has one line per task plus one header per non-empty group |
| Senders.GenericLines | index.js:274-326 | `sendGeneric`'s lines; Senders.GenericOpensUnassigned and Senders.GenericQuiet state their properties |
| Senders.BuildGenericLines | index.js:274-326 | `sendGeneric`'s lines: the title and a blank line, today's pinned layout, then the pending header and pinned layout when anything is overdue |
| Senders.SendGeneric | index.js:270-340 | `sendGeneric` sends nothing when nothing is due today or overdue, and otherwise the chunks of its lines |
| Senders.GenericQuiet | index.js:272 | `sendGeneric` is silent exactly when nothing is due today and nothing is overdue |
| Senders.AreaLines | index.js:347-374 | `sendArea`'s lines; Senders.AreaFallback, Senders.AreaListsToday and Senders.AreaListsPending state what they list |
| Senders.BuildAreaLines | index.js:347-374 | `sendArea`'s lines: the title and a blank line, the area's tasks due today or the placeholder, then the pending section if the area has overdue tasks |
| Senders.SendArea | index.js:343-391 | `sendArea` always sends the chunks of its lines |
| Senders.ItemIsNotPlaceholder | index.js:357-360 | an item line is never the placeholder line |
| Senders.AreaFallback | index.js:351-361 | the placeholder shows exactly when the area has no task due today, and the report is sent even then |
| Senders.AreaListsToday | index.js:351-358 | every task of the area that is due today has its line |
| Senders.AreaListsPending | index.js:364-373 | every overdue task of the area has its line, with its date |
| Senders.BuildDepartmentToUserLines | index.js:437-468 | `sendDepartmentToUser`'s lines: the title and a blank line, today's sections, then the pending header and sections |
| Senders.SendDepartmentToUser | index.js:434-471 | the DM copy sends `chunkLines(lines, 2000)` with no early return |
| Senders.DepartmentToUserDiffers | index.js:431-438 | though documented as sending the same lines as `sendDepartment`, the DM copy never does |
| Senders.BuildGenericToUserLines | index.js:479-510 | `sendGenericToUser`'s lines: the same layout as `sendGeneric`, but unpinned |
| Senders.SendGenericToUser | index.js:476-513 | the DM copy sends `chunkLines(lines, 2000)` with no early return |
| Senders.GenericToUserOpensFirstKey | index.js:483-492 | the DM copy's first block is headed by the key of the first task due today |
| Senders.GenericOpensUnassigned | index.js:289-297 | the channel copy's first block is `**SIN ASIGNAR**` whenever a task due today has no ids |
| Senders.BuildAreaToUserLines | index.js:521-549 | `sendAreaToUser`'s lines, with their own blank lines and headers |
| Senders.SendAreaToUser | index.js:518-552 | the DM copy sends `chunkLines(lines, 2000)` |
| Senders.ToUserNeverQuiet | index.js:470-471 | the three DM copies always send at least one message |
| Mine.Views | index.js:687 | a department task's activity, ids and date, one view per task, in order |
| Mine.SheetSources | index.js:695-701 | one source per entry of `genericConfigs`, with that sheet's title and buckets |
| Mine.MineOfMembers | index.js:702 | the filter keeps exactly the tasks whose ids hold the user |
| Mine.RenderIsItem | index.js:691 | every item line opens with `• `, so it is neither a header nor a blank line |
| Mine.Block | index.js:703-708 | a source's block is empty exactly when the user has no task there; otherwise it is the bold title, one line per task and a blank line |
| Mine.BlocksSnoc | index.js:700-709 | one more sheet adds its block at the end |
| Mine.BlocksCons | index.js:686-709 | the department's block comes before those of the sheets |
| Mine.SourceBlockEmpty | index.js:702-703 | a block is empty exactly when the user owns none of that bucket's tasks in the source |
| Mine.BlocksEmpty | index.js:684-711 | a part has no block exactly when the user owns no task of that bucket anywhere |
| Mine.SourceBlockHas | index.js:702-706 | a task the user owns has its item in its source's block |
| Mine.BlocksListMine | index.js:686-709 | every task of the bucket that the user owns, in any source, has its item in that part |
| Mine.BlockOnlyMine | index.js:702-707 | every line of a block is its title, a blank line, or the item of a task the user owns there |
| Mine.BlocksOnlyMine | index.js:686-709 | every item line of a part belongs to a task of that bucket which the user owns |
| Mine.BlocksOpenBold | index.js:705 | a part's blocks open with a bold title |
| Mine.FallbackNotBold | index.js:711 | a fallback opens with a check mark, not with a bold title |
| Mine.PartLines | index.js:682-711 | one part of `sendMyPending`: heading, blocks, and the fallback when there are none; Mine.PartFallback, Mine.BlocksListMine and Mine.BlocksOnlyMine state its properties |
| Mine.PartFallback | index.js:711 | a part shows its fallback exactly when the user owns none of its tasks |
| Mine.MyPendingLines | index.js:678-773 | the three parts of `sendMyPending` in order; Mine.NothingForUser and Mine.MyPending state its properties |
| Mine.NothingForUser | index.js:678-773 | for a user with no task anywhere, the listing is exactly the three headings with their fallbacks |
| Mine.AppendBlock | index.js:703-708 | `if (mine.length)` pushes the title, the items and a blank line, and otherwise nothing |
| Mine.AppendSheet | index.js:700-708 | one sheet fetched and filtered appends its block, and reports whether it appended anything |
| Mine.AppendSheetBlocks | index.js:700-709 | the walk over `genericConfigs` appends the sheets' blocks, and its flag says whether any was non-empty |
| Mine.AppendPart | index.js:682-711 | one part appends its heading, the department's block, the sheets' blocks, and the fallback exactly when every block was empty |
| Mine.MyPending | index.js:678-773 | `sendMyPending` collects today's part, the pending part and the future part, in that order |

## Left out

- Discord client setup, login, slash-command registration and the `interactionCreate` dispatch (index.js:39-45, 395-428, 556-667). These are event-driven calls into a library outside this model.
- Google Sheets authentication, the `values.get` fetches and `.env` parsing (index.js:1-36, 106-108, 152-157). These are network calls and configuration. A sheet's rows are a parameter, and an absent `values` counts as no rows.
- Message delivery. A send is modelled as appending to the sequence of messages. Failures and the `try`/`catch` logging are not modelled.
- `toLocaleDateString('es-MX')` is the parameter `fmt`, because the locale's output is not part of this source. An Invalid Date prints as "Invalid Date".
- "Now" is the parameter `today`, a day number. Timezone offsets are not modelled, because `setHours(0,0,0,0)` to local midnight makes both sides of each comparison local.
- Names.Normalize: NFD decomposition is modelled only for Latin-1 letters and the combining marks U+0300-U+036F. `toLowerCase` and `toUpperCase` are exact only on ASCII and Latin-1.
- Names.FindWord: the regular expression is modelled as a literal whole-word search over ASCII word characters. A name containing regex metacharacters, which the source does not escape (index.js:93), is matched literally. Case is ignored because both sides are normalized.
- Tareas.LookupIds: `nameToId[n]` on a plain object also finds inherited names such as `constructor`, `toString` or `__proto__`. For those the source keeps a truthy non-string value and renders it as `<@function Object() { [native code] }>` and the like. The model looks names up only among the map's own keys, so such names are dropped.
- Text.ToLower, Text.ToUpper and Tareas.CodeOf: case mapping is exact only on ASCII and Latin-1. Other characters map to themselves. JavaScript maps more, for example `'ı'.toUpperCase()` is `'I'`, so a code cell `"pı"` selects the group PI in the source and Otros in the model.
- Names.ExtractIds: the names tried come from `Object.keys`, so each is an own key of the map. `Object.keys` order is modelled as the given key list.
- Sorting.SortBy: an Invalid Date is ordered after every valid date. In JavaScript the comparator returns `NaN` for such a pair, and the resulting order is implementation-defined; only the future bucket can hold such dates. The sort is modelled as a value over `seq`, not as an in-place array sort.
- Tareas.GroupMapFinds: it assumes distinct upper-cased group names, which holds for `GROUPS`.
- Mine.MyPending: the final `interaction.sendInChunks(user, lines)` (index.js:776) is left out, because that method does not exist and `user` is undefined there. The model stops at the collected lines.
- Mine.MyPending: the department is fetched once (index.js:686) and its buckets serve all three parts, but each sheet's `fetchTasks` runs again in every part (index.js:701, 729, 760). The model gives each sheet the same rows in every part, so a sheet edited between those fetches is not modelled.
- Chunker.ChunkLinesFit: the doc comment of `chunkLines` (index.js:50) promises chunks of at most `maxLen` characters. The code does not keep that promise: a line longer than `maxLen` is passed through whole, and a first line of length at least `maxLen` is preceded by an empty chunk, so `['abc']` with limit 3 gives `['', 'abc']` (index.js:58-59). The model follows the code; Chunker.LeadingEmptyChunk and Chunker.OversizedLineExample state the deviation.
- Integers are unbounded. `parseInt` on a date part of 16 or more digits rounds to the nearest double in JavaScript, while Dates.ParseInt keeps the exact value. For example, in the date `"1/-1200000000000000000000/100000000000000000000"` the month and the year cancel exactly in the model, which need not happen after JavaScript's rounding. Dates.MakeDate clips the date range as ECMAScript does; other quantities in this core are counts and lengths.
