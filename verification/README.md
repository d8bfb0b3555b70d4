# Book tracker persistence core in Dafny

The book tracker keeps a list of books and a list of genres in memory and
stores them in two text files. This project models three of its parts and
proves properties of them:

- **the model classes**: `Book` with its subclasses `PhysicalBook` and
  `Ebook`, `Genre`, and the `BookStatus` enum;
- **the `DataManager` codec**:
  - the genre file: one `GENRE: <id> ; <name>` line per genre;
  - the book file: tagged multi-line records;
  - the line-by-line state machine that reads the book file back;
- **the `BookService` facade**: it owns the two lists, validates additions,
  replaces and removes books by id, filters by genre, and saves both files
  after every change.

## How the model is built

| file | module | what it holds |
|---|---|---|
| `java_lang.dfy` | `JavaLang` | `Option` for nullable references, the unchecked exceptions, 32-bit `int`, `String.valueOf`, `String.hashCode`, `Objects.hash` |
| `java_int.dfy` | `JavaInt` | `Integer.toString` and `Integer.parseInt` |
| `java_text.dfy` | `JavaText` | `startsWith`, `indexOf`, `split`, `trim`, `equalsIgnoreCase`, and the physical lines a `write` plus `newLine` produces |
| `sequences.dfy` | `Sequences` | small facts about sequence concatenation and slicing |
| `book_status.dfy` | `Status` | `BookStatus`: constant names, display names, `valueOf` |
| `genre.dfy` | `Genres` | class `Genre` |
| `book.dfy` | `Books` | class `Book`, with its runtime class as `const ebook` |
| `genre_codec.dfy` | `GenreCodec` | the genre file: encoding, decoding, round trip |
| `book_codec.dfy` | `BookCodec` | the book file: encoding, and the decoder as a step function over a machine state |
| `book_loading.dfy` | `BookLoading` | what the decoder does with each kind of line and block |
| `book_round_trip.dfy` | `BookRoundTrip` | the layout of a record, and decoding what was encoded |
| `data_manager.dfy` | `Persistence` | class `DataManager`: the load and save loops, proved against the codec functions |
| `book_service.dfy` | `Service` | class `BookService` |

### Entities and state

- A Java reference that may be null is an `Option` or a nullable class type.
- Java `int` is the subset type `Int32`. Hash arithmetic wraps explicitly.
- `Book` and `Genre` are classes because their setters change fields in
  place. The setters are methods whose `ensures` give the whole new state,
  as a record value (`BookValue`, `GenreRecord`) computed from the fields.
- Dafny has no subclassing here. One class `Book` carries the runtime class
  as `const ebook`. `local` is a field that only an e-book reads or writes.
- A file is `Option<seq<string>>`: `None` is a missing file, otherwise its
  lines.
  - `write(x)` followed by `newLine()` adds the lines of `x`, split at
    `'\n'`.
  - The file contents are fields of `DataManager`, which its save methods
    assign.
- `loadBooks` keeps its `while` loop (`Persistence.DataManager.LoadBooks`),
  and so do the save loops.
  - Each loop is proved equal to a function: `Run` over the machine state
    `Machine(books, builder, block)`, or `EncodeBooks`/`EncodeGenres`.
  - The properties are then proved about those functions.
- Exceptions that leave a method are explicit results:
  - `Progress.Crashed` and `LoadResult.Threw` for the decoder;
  - `Emitted.failure` for the encoder;
  - `Outcome.Raised` in the service.
- `BookService` is a class with `seq` fields `bookList` and `genreList`.
  Every mutating method states what its result is and what the new state
  is, for every branch: validation failure, exception, no-op, or change
  plus save.

### Behaviour worth knowing

- **A malformed number:** `loadBooks` (whose `@return` at
  bookTracker/src/com/bookTracker/persistence/DataManager.java:143 promises
  a list of books) catches the `NumberFormatException` at line 247 and
  returns the books finished before the bad line
  (`BookRoundTrip.BadNumberKeepsEarlierBooks`).
- **Load errors:** only `IOException` and `NumberFormatException` are
  caught (DataManager.java:110 and :247). An unknown `STATUS` value
  (`IllegalArgumentException`) escapes the `BookService` constructor, and
  so does an end tag outside a record (`NullPointerException`). Only a
  missing file gives the empty list that the `@return` at
  DataManager.java:84 mentions.
- **A null description:** `saveBooks` throws `NullPointerException` on it,
  and on a null status, after writing part of the record.
- **`deleteBook`:** its Javadoc
  (LPOO_TrabalhoFInal_V3/bookTracker/src/com/bookTracker/service/BookService.java:172)
  speaks of removing one book; the `removeIf` at line 182 removes every
  entry with that id.
- **Page numbers:** no page rule is checked outside the GUI, and the
  setters (Book.java:186 and :210) accept any `int`.

## Model

| member | source | states |
|---|---|---|
| JavaLang.Wrap32 | bookTracker/src/com/bookTracker/model/Book.java:256-259 | the result is a Java `int`; it is the input when that fits, and differs from it by a multiple of 2^32 |
| JavaLang.JavaStr | bookTracker/src/com/bookTracker/persistence/DataManager.java:270-273 | concatenating a string appends its text, and appends `null` for a null reference |
| JavaInt.IntToString | bookTracker/src/com/bookTracker/persistence/DataManager.java:274-276 | at least one character; a leading `-` exactly for negative numbers; ASCII digits otherwise |
| JavaInt.ParseInt | bookTracker/src/com/bookTracker/persistence/DataManager.java:201-209 | succeeds only on an optional sign followed by ASCII digits, and its value is an `int` |
| JavaInt.DigitsOfNat | bookTracker/src/com/bookTracker/persistence/DataManager.java:274-276 | the decimal digits written for a number have that number as their value |
| JavaInt.ParseIntToString | bookTracker/src/com/bookTracker/persistence/DataManager.java:201-209 | `parseInt` reads back every `int` that `saveBooks` writes |
| JavaInt.ParseRejectsNonDigit | bookTracker/src/com/bookTracker/persistence/DataManager.java:201-209 | a non-digit anywhere except a leading sign makes `parseInt` fail |
| JavaText.IndexOfFrom | bookTracker/src/com/bookTracker/persistence/DataManager.java:102 | finds the leftmost occurrence at or after `from`, or reports that there is none |
| JavaText.JoinSplit | bookTracker/src/com/bookTracker/persistence/DataManager.java:102 | joining the pieces of `split(sep, -1)` with `sep` gives the text back |
| JavaText.SplitAt | bookTracker/src/com/bookTracker/persistence/DataManager.java:102 | `split` cuts at the leftmost separator and goes on with the rest |
| JavaText.SplitWithoutSeparator | bookTracker/src/com/bookTracker/persistence/DataManager.java:102-103 | text without the separator splits into the text alone |
| JavaText.SingleLine | bookTracker/src/com/bookTracker/persistence/DataManager.java:125-126 | text without a line break is written as exactly one line |
| JavaText.FirstLineEmpty | bookTracker/src/com/bookTracker/persistence/DataManager.java:289 | the first written line is empty exactly when the text is empty or starts with a line break |
| JavaText.BlankIffAllTrimmable | LPOO_TrabalhoFInal_V3/bookTracker/src/com/bookTracker/service/BookService.java:89 | `trim().isEmpty()` holds exactly when every character is at most U+0020 |
| JavaText.LowerAscii | LPOO_TrabalhoFInal_V3/bookTracker/src/com/bookTracker/service/BookService.java:106 | maps upper-case ASCII letters to lower case and keeps every other character |
| JavaText.EqualsIgnoreCaseIsEquivalence | LPOO_TrabalhoFInal_V3/bookTracker/src/com/bookTracker/service/BookService.java:106 | comparing names ignoring case is reflexive, symmetric and transitive |
| Status.ValueOf | bookTracker/src/com/bookTracker/persistence/DataManager.java:211 | `valueOf` returns the constant with exactly that name, and fails when no constant has it |
| Status.Name | bookTracker/src/com/bookTracker/model/BookStatus.java:12-14 | the identifier `name()` gives for each constant; `Status.ValueOf` and `Status.ValueOfName` state that reading a name back gives the constant, and `Status.DisplayNameInjective` that the names differ |
| Status.ValueOfName | bookTracker/src/com/bookTracker/persistence/DataManager.java:277 | reading back the constant name that is written gives the status back |
| Status.ValuesListsEachOnce | bookTracker/src/com/bookTracker/model/BookStatus.java:12-14 | the three constants TO_READ, READING, READ are listed once each, in that order |
| Status.DisplayNameInjective | bookTracker/src/com/bookTracker/model/BookStatus.java:34-37 | distinct statuses have distinct display names, and no display name is a constant name |
| Status.DisplayName | bookTracker/src/com/bookTracker/model/BookStatus.java:11-37 | the label `toString` returns; `Status.DisplayNameInjective` states that distinct constants have distinct labels and that no label is a constant's name |
| Genres.Genre.Create | LPOO_TrabalhoFInal_V3/bookTracker/src/com/bookTracker/model/Genre.java:36-39 | the new genre has the fresh id and the given name |
| Genres.Genre.Restore | LPOO_TrabalhoFInal_V3/bookTracker/src/com/bookTracker/model/Genre.java:49-52 | the id and the name are kept verbatim |
| Genres.Genre.SetName | LPOO_TrabalhoFInal_V3/bookTracker/src/com/bookTracker/model/Genre.java:64-66 | only the name changes; the id is final |
| Genres.Genre.ToString | LPOO_TrabalhoFInal_V3/bookTracker/src/com/bookTracker/model/Genre.java:75-78 | the name, which may be null |
| Genres.Genre.Equals | LPOO_TrabalhoFInal_V3/bookTracker/src/com/bookTracker/model/Genre.java:86-92 | equal exactly when the other genre is not null and has the same id, whatever the names |
| Genres.EqualGenresHashAlike | LPOO_TrabalhoFInal_V3/bookTracker/src/com/bookTracker/model/Genre.java:100-103 | equal genres have equal hash codes |
| Genres.Genre.HashCode | LPOO_TrabalhoFInal_V3/bookTracker/src/com/bookTracker/model/Genre.java:100-103 | `Objects.hash(id)`; `Genres.EqualGenresHashAlike` states that genres equal by `equals` hash alike |
| Genres.RecordAt | LPOO_TrabalhoFInal_V3/bookTracker/src/com/bookTracker/model/Genre.java:22-27 | the record of a genre list holds, at each position, that genre's id and name |
| Books.Book.LoadPhysical | LPOO_TrabalhoFInal_V3/bookTracker/src/com/bookTracker/model/PhysicalBook.java:33-36 | forwards to the full constructor: every value kept, a null status becomes TO_READ, null lists become empty |
| Books.Restored | bookTracker/src/com/bookTracker/model/Book.java:73-89 | the state the full constructor sets up; `Books.Book.LoadPhysical` and `Books.Book.LoadEbook` ensure `Value() == Restored(...)`: every value kept, a null status becomes TO_READ, null lists become empty |
| Books.Created | bookTracker/src/com/bookTracker/model/Book.java:106-122 | the state of a new book; `Books.Book.CreatePhysical` and `Books.Book.CreateEbook` ensure `Value() == Created(...)`: a new id, TO_READ, rating and page 0, no notes or quotes |
| Books.Book.CreatePhysical | LPOO_TrabalhoFInal_V3/bookTracker/src/com/bookTracker/model/PhysicalBook.java:51-53 | fresh id, status TO_READ, rating 0, page 0, no notes or quotes, the other values kept |
| Books.Book.LoadEbook | bookTracker/src/com/bookTracker/model/Ebook.java:39-42 | the full constructor's state, plus `local` |
| Books.Book.CreateEbook | bookTracker/src/com/bookTracker/model/Ebook.java:56-59 | the simple constructor's state, plus `local` |
| Books.Book.SetTitle | bookTracker/src/com/bookTracker/model/Book.java:178-180 | only the title changes |
| Books.Book.SetAuthor | bookTracker/src/com/bookTracker/model/Book.java:182-184 | only the author changes |
| Books.Book.SetTotalPages | bookTracker/src/com/bookTracker/model/Book.java:186-188 | only the page count changes, to any `int` |
| Books.Book.SetPublisher | bookTracker/src/com/bookTracker/model/Book.java:190-192 | only the publisher changes |
| Books.Book.SetDescription | bookTracker/src/com/bookTracker/model/Book.java:194-196 | only the description changes, null included |
| Books.Book.SetGenre | bookTracker/src/com/bookTracker/model/Book.java:198-200 | only the genre reference changes |
| Books.Book.SetStatus | bookTracker/src/com/bookTracker/model/Book.java:202-204 | only the status changes, null included |
| Books.Book.SetRating | bookTracker/src/com/bookTracker/model/Book.java:206-208 | only the rating changes, to any `int` |
| Books.Book.SetCurrentPage | bookTracker/src/com/bookTracker/model/Book.java:210-212 | only the current page changes, even past the page count |
| Books.Book.SetNotes | bookTracker/src/com/bookTracker/model/Book.java:214-216 | only the notes change |
| Books.Book.SetQuotes | bookTracker/src/com/bookTracker/model/Book.java:218-220 | only the quotes change |
| Books.Book.Local | bookTracker/src/com/bookTracker/model/Ebook.java:61-63 | the e-book's location, as held in its state |
| Books.Book.SetLocal | bookTracker/src/com/bookTracker/model/Ebook.java:65-67 | only the location changes |
| Books.Book.ToString | bookTracker/src/com/bookTracker/model/Book.java:228-230 | title, ` / `, author, ` / Total páginas:`, then the page count |
| Books.Book.Equals | bookTracker/src/com/bookTracker/model/Book.java:239-248 | equal exactly when the other object is not null, has the same runtime class and the same id; no other field matters |
| Books.EqualBooksHashAlike | bookTracker/src/com/bookTracker/model/Book.java:256-259 | equal books have equal hash codes |
| Books.Book.HashCode | bookTracker/src/com/bookTracker/model/Book.java:256-259 | `Objects.hash(id)`; `Books.EqualBooksHashAlike` states that books equal by `equals` hash alike |
| Books.EbookNeverEqualsPhysical | bookTracker/src/com/bookTracker/model/Book.java:241 | an e-book and a physical book are never equal, whatever their ids |
| Books.SnapshotAt | bookTracker/src/com/bookTracker/model/Book.java:27-53 | the state of a book list holds, at each position, that book's fields |
| GenreCodec.AcceptedLineIsWritten | bookTracker/src/com/bookTracker/persistence/DataManager.java:98-106 | every accepted line is exactly the line `saveGenres` writes for the genre it yields, whose name is not null |
| GenreCodec.DecodeGenreLine | bookTracker/src/com/bookTracker/persistence/DataManager.java:98-107 | the genre one line yields; `GenreCodec.AcceptedLineIsWritten` states that an accepted line is the line written for that genre, and `GenreCodec.GenreLineDecodes` that the line of a storable genre (name not null, no separator or line break, id not ending with ` ;`) reads back |
| GenreCodec.EncodeGenresSnoc | bookTracker/src/com/bookTracker/persistence/DataManager.java:123-127 | one more genre adds its line after the lines of the others |
| GenreCodec.EncodeGenres | bookTracker/src/com/bookTracker/persistence/DataManager.java:121-131 | at least one line per genre; `GenreCodec.OneLinePerGenre` states the file is one `GENRE` line per genre in list order, and `GenreCodec.GenresRoundTrip` that loading it gives the genres back |
| GenreCodec.DecodeGenres | bookTracker/src/com/bookTracker/persistence/DataManager.java:88-92 | a missing file yields no genres |
| GenreCodec.DecodeGenreLinesAppend | bookTracker/src/com/bookTracker/persistence/DataManager.java:97-109 | each line is decoded on its own, and the genres keep the order of their lines |
| GenreCodec.UntaggedLinesSkipped | bookTracker/src/com/bookTracker/persistence/DataManager.java:98 | lines without the `GENRE: ` prefix yield nothing |
| GenreCodec.NoSeparatorInsideId | bookTracker/src/com/bookTracker/persistence/DataManager.java:102 | no separator starts inside a written id that has no separator and does not end with ` ;` |
| GenreCodec.SeparatorAfterId | bookTracker/src/com/bookTracker/persistence/DataManager.java:102 | the leftmost separator of a written genre line is the one after the id |
| GenreCodec.GenreLineDecodes | bookTracker/src/com/bookTracker/persistence/DataManager.java:98-106 | the line written for a storable genre (name not null, no separator or line break in id or name, id not ending with ` ;`) reads back as that genre |
| GenreCodec.OneLinePerGenre | bookTracker/src/com/bookTracker/persistence/DataManager.java:121-127 | with no line break in ids or names, exactly one `GENRE: id ; name` line per genre, in list order, and nothing else |
| GenreCodec.GenresRoundTrip | bookTracker/src/com/bookTracker/persistence/DataManager.java:86-127 | loading the saved genres gives the same list when names are not null, ids and names hold no separator or line break, and no id ends with ` ;` (`GenreCodec.IdEndingInSemicolonSplitsEarly` shows why) |
| GenreCodec.IdEndingInSemicolonSplitsEarly | bookTracker/src/com/bookTracker/persistence/DataManager.java:102 | the genre `("a ;", "x")` reads back as `("a", "; x")`, which is why storable ids may not end with ` ;` |
| BookCodec.Blocks | bookTracker/src/com/bookTracker/persistence/DataManager.java:293-304 | at least three lines per text, one start tag, the text, one end tag |
| BookCodec.EncodeBook | bookTracker/src/com/bookTracker/persistence/DataManager.java:260-309 | the record starts with `BOOK_START: EBOOK` or `PHYSICAL`; writing fails, with a `NullPointerException`, exactly when the status or the description is null |
| BookCodec.EncodeBooks | bookTracker/src/com/bookTracker/persistence/DataManager.java:258-314 | the only exception saving can raise is a `NullPointerException` |
| BookCodec.EncodeBooksFails | bookTracker/src/com/bookTracker/persistence/DataManager.java:258-314 | saving a list completes exactly when every book has a status and a description |
| BookCodec.RecordParts | bookTracker/src/com/bookTracker/persistence/DataManager.java:260-309 | a record is its field lines, one description block, the quote blocks, the note blocks, then `BOOK_END` and an empty line |
| BookCodec.EncodeWithoutStatus | bookTracker/src/com/bookTracker/persistence/DataManager.java:277 | with a null status the record stops after the rating line, with a `NullPointerException` |
| BookCodec.EncodeWithoutDescription | bookTracker/src/com/bookTracker/persistence/DataManager.java:288-289 | with a null description the record stops after `DESCRIPTION_START`, with a `NullPointerException` |
| BookCodec.EncodeBooksCons | bookTracker/src/com/bookTracker/persistence/DataManager.java:260 | after a record that completes, the next records follow it |
| BookCodec.EncodeBooksHeadFails | bookTracker/src/com/bookTracker/persistence/DataManager.java:260 | a record that throws ends the file: nothing after it is written |
| BookCodec.Classify | bookTracker/src/com/bookTracker/persistence/DataManager.java:184-245 | a record start exactly for a `BOOK_START: ` prefix, an e-book exactly when the rest is `EBOOK`; any other field, status or genre line is its tag followed by the value it carries; block starts and `BOOK_END` are those exact lines |
| BookCodec.FindGenre | bookTracker/src/com/bookTracker/persistence/DataManager.java:213-221 | a genre with the id from the loaded list, or null exactly when no loaded genre has that id |
| BookCodec.FirstGenreFound | bookTracker/src/com/bookTracker/persistence/DataManager.java:217-220 | the genre found is the first one in the list with the id |
| BookCodec.DecodeBooks | bookTracker/src/com/bookTracker/persistence/DataManager.java:147-150 | a missing file yields no books |
| BookCodec.Step | bookTracker/src/com/bookTracker/persistence/DataManager.java:162-245 | what one line does to the reading state; `BookLoading.StepStart`, `BookLoading.StepText`, `BookLoading.StepNumber`, `BookLoading.StepStatus`, `BookLoading.StepGenreRef` and the `BookLoading` end-tag lemmas state each case, and `Persistence.DataManager.TagLine`/`BlockLine` that the loop body does the same |
| BookCodec.Run | bookTracker/src/com/bookTracker/persistence/DataManager.java:159-245 | the reading loop over all lines; `BookLoading.RunAppend` states it composes over a split of the lines, and `Persistence.DataManager.LoadBooks` that the `while` loop computes it |
| BookLoading.ClassifyText | bookTracker/src/com/bookTracker/persistence/DataManager.java:189-225 | an `ID:`, `TITLE:`, `AUTHOR:`, `PUBLISHER:` or `LOCAL:` line is read as that field, with the rest of the line as its value |
| BookLoading.ClassifyNumber | bookTracker/src/com/bookTracker/persistence/DataManager.java:201-209 | a `TOTAL_PAGES:`, `CURRENT_PAGE:` or `RATING:` line is read as that number field |
| BookLoading.ClassifyStatus | bookTracker/src/com/bookTracker/persistence/DataManager.java:210-212 | a `STATUS:` line is read as a status name |
| BookLoading.ClassifyGenreRef | bookTracker/src/com/bookTracker/persistence/DataManager.java:213-222 | a `GENRE_ID:` line is read as a genre id |
| BookLoading.ClassifyStart | bookTracker/src/com/bookTracker/persistence/DataManager.java:184-188 | a `BOOK_START: ` line opens an e-book exactly when the rest is `EBOOK` |
| BookLoading.ClassifyBlockStarts | bookTracker/src/com/bookTracker/persistence/DataManager.java:227-238 | the three start tags open a text block |
| BookLoading.ClassifyRecordEnd | bookTracker/src/com/bookTracker/persistence/DataManager.java:240-245 | `BOOK_END` ends a record, and the empty line after it is ignored |
| BookLoading.RunAppend | bookTracker/src/com/bookTracker/persistence/DataManager.java:159 | reading two runs of lines is reading the first, then the second from where it left off |
| BookLoading.RunInsideBlock | bookTracker/src/com/bookTracker/persistence/DataManager.java:173-180 | inside a block, lines that are not end tags only extend the text |
| BookLoading.AccumulateJoins | bookTracker/src/com/bookTracker/persistence/DataManager.java:175-178 | once the buffer holds text, later lines are joined to it with `"\n"` |
| BookLoading.LeadingEmptyLineLost | bookTracker/src/com/bookTracker/persistence/DataManager.java:175-178 | an empty first line of a block adds nothing, since no separator is added to an empty buffer |
| BookLoading.LeadingLineBreakLost | bookTracker/src/com/bookTracker/persistence/DataManager.java:175-178 | the text `"\nx"` is written in a block and read back as `"x"` |
| BookLoading.BlockTextReadsBack | bookTracker/src/com/bookTracker/persistence/DataManager.java:175-178 | a text that does not start with a line break reads back as written |
| BookLoading.RunTextBlock | bookTracker/src/com/bookTracker/persistence/DataManager.java:162-181 | start tag, text and end tag store the text as the end tag says and leave the block |
| BookLoading.RunBlocks | bookTracker/src/com/bookTracker/persistence/DataManager.java:162-181 | a run of blocks stores each text in turn |
| BookLoading.CloseAllQuotes | bookTracker/src/com/bookTracker/persistence/DataManager.java:167-169 | quote blocks append their texts to the quotes, in order |
| BookLoading.CloseAllNotes | bookTracker/src/com/bookTracker/persistence/DataManager.java:170-172 | note blocks append their texts to the notes, in order |
| BookLoading.AnyEndTagClosesBlock | bookTracker/src/com/bookTracker/persistence/DataManager.java:162-172 | whatever tag opened the block, `DESCRIPTION_END` replaces the description, `QUOTE_END` adds a quote, `NOTE_END` adds a note |
| BookLoading.EndTagWithoutRecordThrows | bookTracker/src/com/bookTracker/persistence/DataManager.java:164-172 | an end tag in a block opened outside any record throws `NullPointerException` |
| BookLoading.FieldWithoutRecordIgnored | bookTracker/src/com/bookTracker/persistence/DataManager.java:189-225 | outside a record, field lines and `BOOK_END` change nothing |
| BookLoading.StartDropsOpenRecord | bookTracker/src/com/bookTracker/persistence/DataManager.java:184-188 | `BOOK_START` discards an unfinished record and opens a fresh builder |
| BookLoading.EndRecordAppends | bookTracker/src/com/bookTracker/persistence/DataManager.java:240-245 | `BOOK_END` appends the built book, if a record is open, and closes it |
| BookLoading.LaterFieldLineWins | bookTracker/src/com/bookTracker/persistence/DataManager.java:189-225 | of two lines for the same text field (ID, TITLE, AUTHOR, PUBLISHER, LOCAL), the later one wins |
| BookLoading.FieldLinesCommute | bookTracker/src/com/bookTracker/persistence/DataManager.java:189-225 | lines for two different text fields (ID, TITLE, AUTHOR, PUBLISHER, LOCAL) may come in either order |
| BookLoading.BadNumberStops | bookTracker/src/com/bookTracker/persistence/DataManager.java:201-209 | a malformed number stops reading and keeps only the books finished so far |
| BookLoading.BadStatusThrows | bookTracker/src/com/bookTracker/persistence/DataManager.java:210-212 | an unknown status name throws `IllegalArgumentException` out of the load |
| BookLoading.GenreLineLinks | bookTracker/src/com/bookTracker/persistence/DataManager.java:213-222 | a `GENRE_ID` line links the first loaded genre with the id, and leaves no genre, without error, when none has it |
| BookLoading.PhysicalIgnoresLocal | bookTracker/src/com/bookTracker/persistence/DataManager.java:334-339 | a `LOCAL:` line has no effect on a physical book |
| BookLoading.EbookWithoutLocal | bookTracker/src/com/bookTracker/persistence/DataManager.java:223-245 | a record of only `BOOK_START: EBOOK` and `BOOK_END` adds one e-book, whose location is null |
| BookLoading.BooksOnlyAtRecordEnd | bookTracker/src/com/bookTracker/persistence/DataManager.java:240-245 | without a `BOOK_END` line no book is added, so an unfinished record at the end of the file is dropped |
| BookLoading.StepStart | bookTracker/src/com/bookTracker/persistence/DataManager.java:184-188 | outside a block, `BOOK_START: kind` opens a fresh builder |
| BookLoading.StepNumber | bookTracker/src/com/bookTracker/persistence/DataManager.java:201-209 | a number line written by `saveBooks` sets that field to the number |
| BookLoading.StepStatus | bookTracker/src/com/bookTracker/persistence/DataManager.java:210-212 | a status line with a constant name sets the status |
| BookRoundTrip.LeadLinesOfStorable | bookTracker/src/com/bookTracker/persistence/DataManager.java:262-276 | a storable book begins with its kind line, then one line each for ID, TITLE, AUTHOR, PUBLISHER, TOTAL_PAGES, CURRENT_PAGE, RATING |
| BookRoundTrip.FieldLinesOfStorable | bookTracker/src/com/bookTracker/persistence/DataManager.java:277-285 | then STATUS, GENRE_ID (`NULL_GENRE_ID` for no genre), and a `LOCAL:` line for an e-book only |
| BookRoundTrip.RecordLayout | bookTracker/src/com/bookTracker/persistence/DataManager.java:258-290 | a storable book's record opens with its header lines in that fixed order, then `DESCRIPTION_START` |
| BookRoundTrip.RecordOpensDescription | bookTracker/src/com/bookTracker/persistence/DataManager.java:288 | a record with a status and a description has `DESCRIPTION_START` right after its field lines |
| BookRoundTrip.RunLead | bookTracker/src/com/bookTracker/persistence/DataManager.java:184-209 | reading the header opens the builder of the right kind with the id, texts and numbers |
| BookRoundTrip.RunFields | bookTracker/src/com/bookTracker/persistence/DataManager.java:184-225 | reading all field lines gives a builder holding every single-line field of the book |
| BookRoundTrip.RunBody | bookTracker/src/com/bookTracker/persistence/DataManager.java:159-238 | reading the fields and blocks gives a builder with the book's description, quotes and notes too |
| BookRoundTrip.RecordRoundTrip | bookTracker/src/com/bookTracker/persistence/DataManager.java:159-310 | a storable book's record is written in full and reads back as that book |
| BookRoundTrip.RecordsRoundTrip | bookTracker/src/com/bookTracker/persistence/DataManager.java:159-310 | a list of storable books reads back after any books already read |
| BookRoundTrip.BooksRoundTrip | bookTracker/src/com/bookTracker/persistence/DataManager.java:145-314 | loading what `saveBooks` wrote, against the same genres, gives the books back field for field, in order, when every book is storable |
| BookRoundTrip.TrailingPartialRecordDropped | bookTracker/src/com/bookTracker/persistence/DataManager.java:240-251 | lines after the saved records that hold no `BOOK_END` add no book: the load gives the saved books, or throws |
| BookRoundTrip.BadNumberKeepsEarlierBooks | bookTracker/src/com/bookTracker/persistence/DataManager.java:247-251 | a bad number in a later record still returns every book before it, and none after |
| Persistence.BlocksSnoc | bookTracker/src/com/bookTracker/persistence/DataManager.java:293-304 | one more text adds its block after the others |
| Persistence.EncodeBooksSnoc | bookTracker/src/com/bookTracker/persistence/DataManager.java:260-310 | one more book adds its record after the others, when those were written in full |
| Persistence.EncodeBooksStops | bookTracker/src/com/bookTracker/persistence/DataManager.java:260-310 | once a record throws, the books after it change nothing |
| Persistence.BuildBook | bookTracker/src/com/bookTracker/persistence/DataManager.java:334-340 | `build()` allocates a new book whose state is the builder's book |
| BookCodec.Build | bookTracker/src/com/bookTracker/persistence/DataManager.java:334-340 | the book `build()` makes from the builder; `Persistence.BuildBook` ensures the new object's state is `Build(b)`, and `BookLoading.PhysicalIgnoresLocal` that a physical book drops LOCAL |
| Persistence.BookLines | bookTracker/src/com/bookTracker/persistence/DataManager.java:262-309 | the lines written for one book, and the exception, are the ones its record promises |
| Persistence.BlockLines | bookTracker/src/com/bookTracker/persistence/DataManager.java:293-304 | the quote or note loop writes exactly the blocks of its texts |
| Persistence.GenreRecordLines | bookTracker/src/com/bookTracker/persistence/DataManager.java:123-127 | the genre loop writes exactly the genre file's lines |
| Persistence.BookRecords | bookTracker/src/com/bookTracker/persistence/DataManager.java:260-310 | the book loop writes exactly the book file's lines and stops with the first exception |
| Persistence.DataManager.constructor | bookTracker/src/com/bookTracker/persistence/DataManager.java:72-75 | the manager works on the two given files |
| Persistence.DataManager.LoadGenres | bookTracker/src/com/bookTracker/persistence/DataManager.java:86-114 | new genres whose ids and names are what genre decoding gives, each a fresh object listed once |
| Persistence.DataManager.GenreLine | bookTracker/src/com/bookTracker/persistence/DataManager.java:98-107 | one line adds the genre that line decodes to, as a fresh object at the end of the list, or nothing; no genre ends up listed twice |
| Persistence.DataManager.SaveGenres | bookTracker/src/com/bookTracker/persistence/DataManager.java:121-131 | the genre file is replaced by the encoding of the genres; the book file is untouched |
| Persistence.DataManager.BlockLine | bookTracker/src/com/bookTracker/persistence/DataManager.java:162-181 | one line inside a block does what the machine step does |
| Persistence.DataManager.TagLine | bookTracker/src/com/bookTracker/persistence/DataManager.java:184-245 | one line outside a block does what the machine step does, with stop and exception as the step says; any book it adds is a fresh object, so no book ends up listed twice |
| Persistence.DataManager.LoadBooks | bookTracker/src/com/bookTracker/persistence/DataManager.java:145-252 | new books whose states are the decoded books, or the exception decoding throws; each book a fresh object listed once |
| Persistence.DataManager.SaveBooks | bookTracker/src/com/bookTracker/persistence/DataManager.java:258-314 | the book file is replaced by the lines written, up to any exception, which is returned; the genre file is untouched |
| Service.SaveOutcome | LPOO_TrabalhoFInal_V3/bookTracker/src/com/bookTracker/service/BookService.java:78-81 | a save completes exactly when `saveBooks` throws nothing, and otherwise raises its exception |
| Service.ScanNames | LPOO_TrabalhoFInal_V3/bookTracker/src/com/bookTracker/service/BookService.java:106 | no duplicate and no exception exactly when every genre has a name and none equals the new one ignoring case |
| Service.ScanNamesFirst | LPOO_TrabalhoFInal_V3/bookTracker/src/com/bookTracker/service/BookService.java:106-108 | a duplicate exactly when a genre matches before any null name, and a `NullPointerException` exactly when a null name comes first |
| Service.NamedGenresScan | LPOO_TrabalhoFInal_V3/bookTracker/src/com/bookTracker/service/BookService.java:106-108 | when every genre has a name: no exception, and a duplicate exactly when some name equals the new one ignoring case |
| Service.NullIdFirstStep | LPOO_TrabalhoFInal_V3/bookTracker/src/com/bookTracker/service/BookService.java:153-160 | passing a book with another id does not change whether a null id is met before a match |
| Service.FindIdFrom | LPOO_TrabalhoFInal_V3/bookTracker/src/com/bookTracker/service/BookService.java:153-160 | the first index with the id, every earlier book having another id; not found exactly when every book has an id other than the given one; a `NullPointerException` exactly when a null id comes before any book with the id |
| Service.SearchId | LPOO_TrabalhoFInal_V3/bookTracker/src/com/bookTracker/service/BookService.java:153-160 | the search loop ends as the search function says |
| Service.Without | LPOO_TrabalhoFInal_V3/bookTracker/src/com/bookTracker/service/BookService.java:182 | no longer than the list; every book kept is from the list and has another id; every book with another id is kept |
| Service.WithoutAppend | LPOO_TrabalhoFInal_V3/bookTracker/src/com/bookTracker/service/BookService.java:182 | removal keeps the remaining books in their order |
| Service.WithoutShrinksIffFound | LPOO_TrabalhoFInal_V3/bookTracker/src/com/bookTracker/service/BookService.java:182-184 | the list shrinks exactly when some book has the id; otherwise it is left as it was |
| Service.WithoutIdempotent | LPOO_TrabalhoFInal_V3/bookTracker/src/com/bookTracker/service/BookService.java:182 | every book with the id goes at once: removing again removes nothing |
| Service.OfGenre | LPOO_TrabalhoFInal_V3/bookTracker/src/com/bookTracker/service/BookService.java:122 | no longer than the list; every book kept has a genre with the given id; every such book is kept |
| Service.OfGenreAppend | LPOO_TrabalhoFInal_V3/bookTracker/src/com/bookTracker/service/BookService.java:122 | the filter keeps the books in list order |
| Service.OfGenreDistinct | LPOO_TrabalhoFInal_V3/bookTracker/src/com/bookTracker/service/BookService.java:122 | the filter lists no book twice when the list has none twice |
| Service.OfEqualGenres | LPOO_TrabalhoFInal_V3/bookTracker/src/com/bookTracker/service/BookService.java:122 | two genres with the same id select the same books |
| Service.BookService.Open | LPOO_TrabalhoFInal_V3/bookTracker/src/com/bookTracker/service/BookService.java:43-47 | a new service over the two files, its lists loaded as `loadData` states, holding fresh genre and book objects each listed once; no books when loading throws |
| Service.BookService.LoadData | LPOO_TrabalhoFInal_V3/bookTracker/src/com/bookTracker/service/BookService.java:58-70 | genres loaded from the genre file, then books decoded against those genres, or the exception that escapes with the book list left as it was; the loaded objects are fresh and each listed once |
| Service.BookService.ReadFiles | LPOO_TrabalhoFInal_V3/bookTracker/src/com/bookTracker/service/BookService.java:60-66 | the two loads, in order, with the books linked to the genres just loaded; both lists hold fresh objects, each listed once |
| Service.BookService.SaveData | LPOO_TrabalhoFInal_V3/bookTracker/src/com/bookTracker/service/BookService.java:78-81 | both files hold the encodings of the current lists; the exception of `saveBooks` is returned |
| Service.BookService.AddBook | LPOO_TrabalhoFInal_V3/bookTracker/src/com/bookTracker/service/BookService.java:88-94 | null book: exception, nothing changes; null or blank title: rejected, nothing changes; otherwise appended at the end, genres unchanged, both files saved |
| Service.BookService.AddGenre | LPOO_TrabalhoFInal_V3/bookTracker/src/com/bookTracker/service/BookService.java:101-111 | null genre: exception; null or blank name: rejected; a name equal ignoring case to an earlier one: rejected; a null name met first: exception; none of these changes anything; otherwise appended, books unchanged, both files saved |
| Service.BookService.FilterBooksByGenre | LPOO_TrabalhoFInal_V3/bookTracker/src/com/bookTracker/service/BookService.java:118-123 | every book for null; otherwise exactly the books whose genre is not null and has the given id, in list order (the stream filter) |
| Service.BookService.GetAllGenres | LPOO_TrabalhoFInal_V3/bookTracker/src/com/bookTracker/service/BookService.java:129-131 | the current genres, position by position, as a value the caller cannot change |
| Service.BookService.GetAllBooks | LPOO_TrabalhoFInal_V3/bookTracker/src/com/bookTracker/service/BookService.java:137-139 | the same list as filtering by null |
| Service.BookService.UpdateBook | LPOO_TrabalhoFInal_V3/bookTracker/src/com/bookTracker/service/BookService.java:147-169 | null book or null id: no-op; otherwise only the first book with the id is replaced, length and other positions kept, both files saved; no-op when no book has the id; exception, nothing changed, at a null id met first |
| Service.BookService.DeleteBook | LPOO_TrabalhoFInal_V3/bookTracker/src/com/bookTracker/service/BookService.java:175-190 | null: no-op; a book with a null id in the list: exception, nothing removed; otherwise every book with the id removed, the rest in order, saved only if something was removed |

## Left out

- The GUI (`MainFrame`, `BookDetails`, `NewBook`), including the form's page rule and the table search.
- File handles, `File.exists`, character sets and `IOException`: a file is its lines, and a missing file is `None`.
- `readLine` also ends a line at `'\r'` and at `"\r\n"`. The model splits at `'\n'` only and writes `newLine` as `'\n'`.
- `UUID.randomUUID()`: the fresh id is a parameter of `Genre.Create`, `Book.CreatePhysical` and `Book.CreateEbook`.
- Logging to `System.out`/`System.err`, `printStackTrace`, `Serializable`, and the messages of `ValidationException`. The exception is the `Outcome.Rejected` result with a reason.
- JavaInt.ParseInt: only ASCII digits are accepted. Java also accepts other Unicode decimal digits.
- JavaText.EqualsIgnoreCase: folds ASCII letters only. Java folds all of Unicode.
- JavaLang.StringHash: hashes Dafny characters, which are Unicode scalar values. Java hashes UTF-16 code units, so the two differ for characters outside the Basic Multilingual Plane.
- Null elements inside the note, quote, book and genre lists.
- Books.Book.SetNotes: takes a list, not null, so `setNotes(null)` is not modelled; the same goes for Books.Book.SetQuotes.
- A genre with a null id: `Genre.id` is a `string`. Neither the loader nor the GUI creates such a genre.
- Aliasing of the lists:
  - a Java `Book` keeps the list its caller passed in;
  - the service's lists are shared with whoever holds them.
  
  Here lists are values, so every copy `getAllBooks` and `getAllGenres` promise is automatic.
- `BookBuilder` is a datatype (`BookCodec.Builder`), not a class, because it is scratch state local to one `loadBooks` call.
- `readingMode`'s value (`"DESCRIPTION"`, `"QUOTE"`, `"NOTE"`) is never read, so the machine only records that a block is open.
- The null checks in `loadData` never fire, because `loadGenres` and `loadBooks` never return null.
- Service.BookService.Open: returns the service object even when `loadData` throws. In Java the constructor throws and no object is returned.
- Books.Book.Equals: requires that a book with a null id is not compared with another book of the same class, because Java throws `NullPointerException` there.
- Books.Book.ToString: states the text's prefix (title, author, label) and suffix (the page count), not the whole text at once.
