# Visitor queue kiosk: queue store, announcement text and ticket barcode

This project models the core of a walk-in visitor queueing kiosk. Visitors
take a numbered ticket. Staff at one of three counters ("loket") call the next
waiting ticket, recall it, skip it or mark it served. A public display announces
each call aloud in Indonesian. A printed ticket carries a decorative barcode of
the ticket id.

The model covers three parts:

- **The queue store** (`src/lib/queueStore.ts`). One document holds the tickets,
  the last issued number, the day the numbering belongs to (`lastReset`) and the
  ticket each loket 1..3 is holding (`calledByLoket`).
  - `queue_document.dfy`: the document, loading a stored copy (`getInitialState`:
    daily reset, migration of the old `currentCalled` field, fallback to a fresh
    document), the queries, and the invariant `Consistent`. `Consistent` means
    the numbering is dense and each occupied slot names a ticket that is called
    at that loket.
  - `queue_commands.dfy`: each command as a function of the loaded document
    (`takeNumber`, `callNext`, `recallCurrent`, `skipCurrent`, `markServed`).
    Lemmas show that every command and every run of commands keeps `Consistent`,
    that `callNext` serves the lowest waiting number, and that statuses only move
    forward.
  - `queue_store.dfy`: the class `Store`, whose fields are the document last
    written to storage. Each command method reloads the document, changes a
    local copy and writes it back, as the source does. Each method is proved
    equal to the command function. The array scans (`filter`, `find`) are loops
    proved against their specification functions.
- **The announcement text** (`src/lib/tts.ts`), in `speech.dfy`. This covers
  `formatNumberForSpeech`, the digit and loket word tables, and the sentence
  `Nomor antrian <spoken number>, menuju loket <loket word>`. A spoken number
  reads back to its digits. Two announcements are equal only when they name the
  same number and the same loket.
- **The ticket barcode** (`generateBarcodeLines` in `src/lib/printTicket.ts`),
  in `barcode.dfy`. This is the two nested loops over characters and widths,
  proved against a layout function. The lemmas give two bars per character,
  bar widths 1..3, a first bar at x = 10, and strictly increasing x positions.

`decimal.dfy` holds JavaScript's `String(n)` for integers and `padStart`, with
the decimal value of a digit string. `wrappers.dfy` holds `Option`.

The store has no service types, no per-service counters, no display code such
as "A007" and no reset command. It keeps one counter (`currentNumber`), numbers
tickets "001", "002", …, and starts a new day only lazily, when a read finds
that the stored day differs from today.

Clock readings (today's date string and the current time) are parameters.
Storage is modelled as a value of type `Stored`: `Absent` for a missing key,
`Malformed` for text that does not parse, or `Parsed(doc)`.

## Model

| member | source | states |
|---|---|---|
| QueueDocument.Fresh | src/lib/queueStore.ts:92-97 | the document of a new day: no tickets, counter 0, stamped today, every slot empty, and already consistent |
| QueueDocument.FormatQueueNumber | src/lib/queueStore.ts:34-36 | at least 3 characters, ending with `String(n)`, with only '0' in front of it |
| QueueDocument.TicketId | src/lib/queueStore.ts:114 | the id of ticket n issued on a day is the day, a '-' and `String(n)` (`TicketIdInjective` makes it unique per day) |
| QueueDocument.Save | src/lib/queueStore.ts:100-107 | writes the current schema (no `currentCalled`, `calledByLoket` present), stamped with the state's day, so loading it on that day gives the state back |
| QueueDocument.MigratedSlots | src/lib/queueStore.ts:69-78 | only slot `loket \|\| 1` can hold the old `currentCalled` ticket, and it does when that slot is 1..3 |
| QueueDocument.LoketOrOne | src/lib/queueStore.ts:69 | `loket \|\| 1`: never 0, the ticket's counter when it is set and non-zero, and 1 otherwise |
| QueueDocument.CalledByLoket.Set | src/lib/queueStore.ts:14-18 | writing slot k changes slot k only; the other slots keep their tickets |
| QueueDocument.FormatQueueNumberRoundTrip | src/lib/queueStore.ts:34-36 | the formatted number is all digits, its decimal value is the number, it is exactly 3 characters below 1000, and it is the plain decimal (never truncated) from 100 up |
| QueueDocument.TicketIdInjective | src/lib/queueStore.ts:114 | on one day, two ticket ids are equal only for equal numbers |
| QueueDocument.IdsUnique | src/lib/queueStore.ts:109-126 | in a densely numbered document, no two tickets share an id |
| QueueDocument.FirstWaiting | src/lib/queueStore.ts:130-134 | the first waiting ticket in array order; none exactly when no ticket is waiting |
| QueueDocument.IndexOfId | src/lib/queueStore.ts:173 | the first ticket with the given id; none exactly when no ticket has it |
| QueueDocument.WaitingCount | src/lib/queueStore.ts:204-207 | the number of waiting tickets is at most the number of tickets and is 0 exactly when none is waiting |
| QueueDocument.WaitingCountAfterUpdate | src/lib/queueStore.ts:130-137 | turning one waiting ticket into a non-waiting one lowers the waiting count by exactly one |
| QueueDocument.GetCalledByLoket | src/lib/queueStore.ts:209-214 | none for a loket outside 1..3, otherwise the ticket in that slot |
| QueueDocument.CalledByLoketIsHeld | src/lib/queueStore.ts:209-214 | under slot agreement, a ticket returned for a loket is a called entry of the list at that loket |
| QueueDocument.Load | src/lib/queueStore.ts:50-98 | every loaded document is stamped with today's date |
| QueueDocument.LoadFallsBackToFresh | src/lib/queueStore.ts:54-65 | a missing key, a malformed value or another day's document loads as the fresh document; a document from today keeps its tickets and counter |
| QueueDocument.LoadMigratesCurrentCalled | src/lib/queueStore.ts:67-80 | an old document with only `currentCalled` puts it in slot `loket \|\| 1` and leaves the other slots empty |
| QueueDocument.LoadKeepsCalledByLoket | src/lib/queueStore.ts:44-48 | a document from today with `calledByLoket` keeps every slot as stored |
| QueueDocument.SaveLoadRoundTrip | src/lib/queueStore.ts:100-107 | loading what was saved gives the saved state back on the same day and the day reset of it on another day |
| QueueDocument.Reload | src/lib/queueStore.ts:54-98 | reading back a document the store saved: stamped today, kept as it is when stamped today and the empty document otherwise (`SaveLoadRoundTrip` ties it to `Load`) |
| QueueDocument.ReloadAgrees | src/lib/queueStore.ts:58-65 | reloading on the same day, or on a day the storage was not stamped with, agrees with loading the storage directly on that day |
| QueueCommands.NewTicket | src/lib/queueStore.ts:113-119 | the new ticket carries number n with its id and formatted number, is waiting, was created now, and has no loket and no calledAt |
| QueueCommands.TakeNumber | src/lib/queueStore.ts:109-126 | appends exactly one waiting ticket numbered currentNumber+1, with id `today-number`, the formatted number `FormatQueueNumber(number)` (exactly 3 digits below 1000), created now with no loket and no calledAt, sets currentNumber to it, leaves the slots alone and raises the waiting count by one |
| QueueCommands.CallNext | src/lib/queueStore.ts:128-146 | none exactly when nothing is waiting; otherwise the first waiting ticket becomes called at the loket with the given time and keeps every other field, nothing else in the list changes, the waiting count drops by one, and only a loket 1..3 records it in its slot |
| QueueCommands.RecallCurrent | src/lib/queueStore.ts:148-162 | none for a loket outside 1..3 or an empty slot; otherwise the slot's ticket with a new calledAt, the ticket list unchanged |
| QueueCommands.Finish | src/lib/queueStore.ts:164-202 | none for a loket outside 1..3 or an empty slot; otherwise the first ticket with the slot's id gets the final status, the slot is emptied, nothing else changes |
| QueueCommands.HeldSurvivesUpdate | src/lib/queueStore.ts:135-141 | changing a ticket other than the one a slot relies on keeps that slot's agreement |
| QueueCommands.WellNumberedKeepsLabels | src/lib/queueStore.ts:111-122 | changing tickets without touching number, id or formatted number keeps the numbering dense |
| QueueCommands.ReloadKeepsConsistent | src/lib/queueStore.ts:58-65 | the daily reset keeps the invariant |
| QueueCommands.AppendKeepsConsistent | src/lib/queueStore.ts:121-122 | appending the next numbered ticket and bumping the counter keeps the invariant |
| QueueCommands.TakeNumberKeepsConsistent | src/lib/queueStore.ts:109-126 | takeNumber keeps the invariant |
| QueueCommands.CallNextKeepsConsistent | src/lib/queueStore.ts:128-146 | callNext keeps the invariant, including when it overwrites a slot |
| QueueCommands.RecallCurrentKeepsConsistent | src/lib/queueStore.ts:148-162 | recallCurrent keeps the invariant |
| QueueCommands.HeldTicketIsFound | src/lib/queueStore.ts:173 | in a consistent document, `find` by the slot's id hits a called entry at that loket |
| QueueCommands.FinishKeepsConsistent | src/lib/queueStore.ts:164-202 | skipCurrent and markServed keep the invariant |
| QueueCommands.Apply | src/lib/queueStore.ts:109-202 | each command loads, acts and saves; the stored document either stays as it was (the early returns) or is replaced by one stamped with the command's day |
| QueueCommands.ApplyKeepsConsistent | src/lib/queueStore.ts:109-202 | every command, reload included, keeps the invariant |
| QueueCommands.RunKeepsConsistent | src/lib/queueStore.ts:109-202 | every sequence of commands from a consistent document keeps the invariant |
| QueueCommands.FreshRunIsConsistent | src/lib/queueStore.ts:92-97 | from a fresh document, numbers are 1..n with currentNumber n and the slots agree after any sequence of commands |
| QueueCommands.CallNextServesLowestNumber | src/lib/queueStore.ts:130-134 | the ticket callNext picks has the lowest number of all waiting tickets |
| QueueCommands.TakeNumberAdvances | src/lib/queueStore.ts:121 | issuing a ticket keeps every earlier ticket's status, so statuses only advance (`Advances`) |
| QueueCommands.CallNextAdvances | src/lib/queueStore.ts:130-142 | calling moves the first waiting ticket from waiting to called and keeps every other status |
| QueueCommands.FinishAdvances | src/lib/queueStore.ts:173-176 | in a consistent document, skip and serve find the slot's ticket, which is called, move it to the final status and keep every other status |
| QueueCommands.OnlyTakeNumberIssues | src/lib/queueStore.ts:109-202 | takeNumber adds one ticket and one to the counter on the stored day and starts over at one ticket numbered 1 on a new day; every other command keeps the list length and the counter on any day |
| QueueCommands.NewDayLeavesStored | src/lib/queueStore.ts:128-202 | on a day other than the stored one, callNext, recallCurrent, skipCurrent and markServed return early and the stored document stays as it was |
| QueueCommands.SameDayKeepsCounts | src/lib/queueStore.ts:128-202 | on the stored day, the commands other than takeNumber keep the list length and the counter |
| QueueCommands.StatusesOnlyAdvance | src/lib/queueStore.ts:128-202 | on the same day, no ticket is lost and a status only moves waiting → called → served or skipped |
| QueueStore.FindFirstWaiting | src/lib/queueStore.ts:130-134 | the scan returns the first waiting ticket's index |
| QueueStore.FindById | src/lib/queueStore.ts:173 | the scan returns the first index with the given id |
| QueueStore.CountWaiting | src/lib/queueStore.ts:206 | the scan counts the waiting tickets |
| QueueStore.Store.constructor | src/lib/queueStore.ts:50-98 | the store starts from whatever the storage loads as today |
| QueueStore.Store.Save | src/lib/queueStore.ts:100-107 | after saving, the stored document is the given state |
| QueueStore.Store.TakeNumber | src/lib/queueStore.ts:109-126 | the stored document becomes the takeNumber step of the reloaded document, and the returned ticket is the new one |
| QueueStore.Store.CallNext | src/lib/queueStore.ts:128-146 | the stored document becomes the callNext step, or is untouched when nothing is waiting; the result is the called ticket or none |
| QueueStore.Store.RecallCurrent | src/lib/queueStore.ts:148-162 | the stored document becomes the recall step, or is untouched for an invalid loket or empty slot; the result is the re-stamped ticket or none |
| QueueStore.Store.Finish | src/lib/queueStore.ts:164-202 | the shared body of skip and serve: the document becomes the finish step, or is untouched; the result says which |
| QueueStore.Store.SkipCurrent | src/lib/queueStore.ts:164-182 | the slot's ticket becomes skipped and the slot empties, or nothing is written and the result is false |
| QueueStore.Store.MarkServed | src/lib/queueStore.ts:184-202 | the slot's ticket becomes served and the slot empties, or nothing is written and the result is false |
| QueueStore.Store.GetWaitingCount | src/lib/queueStore.ts:204-207 | the number of waiting tickets in today's document, never more than the number of tickets |
| QueueStore.Store.GetCalledByLoket | src/lib/queueStore.ts:209-214 | the slot's ticket in today's document, none outside 1..3 |
| Decimal.IntToString | src/lib/queueStore.ts:35 | `String(n)`: non-empty, a leading '-' exactly for negative n, digits otherwise |
| Decimal.PadStart | src/lib/queueStore.ts:35 | `padStart` keeps the string as its suffix, fills only in front and never truncates |
| Decimal.ValueOfNatToString | src/lib/queueStore.ts:35 | `String(n)` of a non-negative integer reads back as n |
| Decimal.IntToStringInjective | src/lib/queueStore.ts:114 | distinct integers print differently |
| Speech.NumberWord | src/lib/tts.ts:3-14 | a word exactly for the characters '0'..'9'; each word is non-empty with no space and no comma |
| Speech.DigitWordRoundTrip | src/lib/tts.ts:3-14 | each digit word identifies its digit |
| Speech.SpokenPiece | src/lib/tts.ts:25 | a digit becomes its word, any other character passes through unchanged |
| Speech.Pieces | src/lib/tts.ts:25 | one piece per input character, in order |
| Speech.JoinWithSpaces | src/lib/tts.ts:25 | `join(' ')`: empty for no pieces, starts with the first piece, and a single space follows it when more pieces come |
| Speech.FormatNumberForSpeech | src/lib/tts.ts:24-26 | the spoken text is empty exactly when the input is |
| Speech.SpokenPieces | src/lib/tts.ts:24-26 | split on single spaces, the spoken text is one piece per character: the digit's word or the character itself |
| Speech.SpeakLeadingZeros | src/lib/tts.ts:25 | "007" is spoken "nol nol tujuh": every leading zero is read |
| Speech.SplitJoin | src/lib/tts.ts:25 | joining space-free pieces with single spaces can be split back into them |
| Speech.SpeechRoundTrip | src/lib/tts.ts:24-26 | a spoken digit string reads back to exactly the digits |
| Speech.LoketWordEntry | src/lib/tts.ts:16-22 | the `loketWords` table has an entry exactly for 1..5, the same word `numberWords` gives that digit |
| Speech.LoketWord | src/lib/tts.ts:40 | the loket word is the `loketWords` entry (the digit word) for 1..5 and the decimal string otherwise |
| Speech.LoketWordKind | src/lib/tts.ts:40 | the loket word starts with a letter exactly for lokets 1..5 |
| Speech.LoketWordInjective | src/lib/tts.ts:40 | different lokets are announced with different words |
| Speech.SpokenHasNoComma | src/lib/tts.ts:25 | the spoken text contains a comma only if the input does |
| Speech.AnnouncementText | src/lib/tts.ts:39-42 | the text is "Nomor antrian ", then exactly the spoken number, then exactly ", menuju loket ", then the loket word; for a number without a comma, its first comma is the one right after the spoken number |
| Speech.TemplateLayout | src/lib/tts.ts:42 | the template splits into the prefix, the spoken number, the counter phrase and the counter word at fixed offsets, and its first comma follows a comma-free spoken number |
| Speech.AnnouncementIsUnambiguous | src/lib/tts.ts:39-42 | two announcements of digit strings are equal only for the same number and the same loket |
| Barcode.Code | src/lib/printTicket.ts:109 | `charCodeAt(0)` in the Basic Multilingual Plane: a code below 0x110000, outside the surrogate range, that converts back to the character, so it identifies the character |
| Barcode.Widths | src/lib/printTicket.ts:109-115 | four widths per character: bars 1..3, gaps 1..2 |
| Barcode.RenderRect | src/lib/printTicket.ts:119 | each rect is longer than its fixed opening and closing (its full layout is `RenderRectLayout`) |
| Barcode.RenderRectLayout | src/lib/printTicket.ts:119 | a rect is `<rect x="`, then x's decimal, then `" y="0" width="` and the width's decimal, then `" height="40" fill="black"/>` |
| Barcode.DrawWidths | src/lib/printTicket.ts:117-122 | the inner loop emits a rect at each even position at the running x and moves x past every width plus one |
| Barcode.Concat | src/lib/printTicket.ts:125 | `join('')` ends with the last line, and is at least as long as the number of lines when none is empty |
| Barcode.DrawNextCharacter | src/lib/printTicket.ts:108-122 | one outer iteration adds character k's advance to x and appends its rendered bars to the lines so far |
| Barcode.GenerateBarcodeLines | src/lib/printTicket.ts:103-126 | the markup is the rects of the layout, in order, joined without separator |
| Barcode.CharacterBars | src/lib/printTicket.ts:110-122 | one character draws exactly two bars, the second after the first bar and first gap, and moves x by 8 to 14 |
| Barcode.BarcodeLength | src/lib/printTicket.ts:117-120 | exactly two rects per character |
| Barcode.BarcodeLayout | src/lib/printTicket.ts:105-122 | character i's bars sit at 10 plus the travel of the characters before it, with widths taken from its code |
| Barcode.BarcodeShape | src/lib/printTicket.ts:105-121 | two rects per character, widths 1..3, first rect at x = 10, x positions strictly increasing |
| Barcode.EmptyBarcodeOnlyForEmptyId | src/lib/printTicket.ts:103-125 | the markup is empty exactly for the empty id |

## Left out

- Storage, JSON and the cross-tab broadcast (`saveState`'s `StorageEvent`, `subscribeToChanges`) are not modelled beyond the `Stored` value. Concurrent tabs can overwrite each other (last write wins); the model has one writer.
- `getTodayString` and `new Date()` are not modelled. They become the `today` and `now` parameters. `takeNumber` reads the clock twice, for the load and for the id; the model uses one `today` for both, so a call exactly at midnight is not captured.
- Dates are plain integers. `parseTicket`'s `new Date(...)` conversion is the identity here.
- A stored document is taken to have well-typed `tickets`, `currentNumber` and `lastReset` fields. A stored document with missing fields that would not make the source throw is not modelled. Extra spread fields (a stale `currentCalled` next to `calledByLoket`) are kept only as the inert `currentCalled` of `StoredDocument`; `Save` writes none.
- QueueDocument.Load: a truthy-but-not-ticket `calledByLoket` entry (such as a number) is not modelled; an entry is either a ticket or absent.
- JavaScript numbers are unbounded integers here: float rounding and the exponent form of `String(n)` at 1e21 and above are not modelled.
- Barcode.Code, Speech.Pieces, Speech.FormatNumberForSpeech: one Dafny `char` stands for one UTF-16 code unit. This is exact for the Basic Multilingual Plane. A character outside it is two units in the source: `charCodeAt` sees each half, and `split('')` makes two pieces with a space between them, where the model keeps one piece. Queue numbers are digit strings, so announcements never meet this case.
- The rest of `announceQueue` (speech synthesis, voice choice, rate, pitch and the promise) and the voice preloading are I/O and are not modelled. Only the text it speaks is.
- `printTicketDirectly` and the print window, and all React views, are outside this model.
- Barcode: that the output depends only on character codes holds by construction of `Widths` (y, height and fill are stated by `RenderRectLayout`); it is not stated as a separate lemma.
- QueueStore.Store.constructor: the first read of raw storage is the constructor; each later command reloads from the last written document. `ReloadAgrees` shows the two views coincide except when the clock goes back: if the storage is stamped day D, the store is created on another day E, and a command then runs on day D before anything is saved, the source reloads the stored day-D document while the model reloads a fresh day-D document.
