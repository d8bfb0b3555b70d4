/** The book file: one tagged record per book,

      BOOK_START: EBOOK | PHYSICAL
      ID: / TITLE: / AUTHOR: / PUBLISHER: / TOTAL_PAGES: / CURRENT_PAGE: /
      RATING: / STATUS: / GENRE_ID: lines, then LOCAL: for an e-book
      DESCRIPTION_START, the text, DESCRIPTION_END
      QUOTE_START, a quote, QUOTE_END        (once per quote)
      NOTE_START, a note, NOTE_END           (once per note)
      BOOK_END, and an empty line

    Saving is a function from books to the physical lines written.
    Loading is a machine over lines: the books finished so far, the record
    being built (`BookBuilder`, null outside a record) and the text block
    being read (`readingMode` with its `StringBuilder`, null outside a
    block). */
module BookCodec {
  import opened JavaLang
  import opened JavaInt
  import opened JavaText
  import opened Status
  import opened Genres
  import opened Books

  const BookStartTag: string := "BOOK_START: "
  const BookEndTag: string := "BOOK_END"
  const IdTag: string := "ID: "
  const TitleTag: string := "TITLE: "
  const AuthorTag: string := "AUTHOR: "
  const PublisherTag: string := "PUBLISHER: "
  const TotalPagesTag: string := "TOTAL_PAGES: "
  const CurrentPageTag: string := "CURRENT_PAGE: "
  const RatingTag: string := "RATING: "
  const StatusTag: string := "STATUS: "
  const GenreIdTag: string := "GENRE_ID: "
  const LocalTag: string := "LOCAL: "
  const DescriptionStart: string := "DESCRIPTION_START"
  const DescriptionEnd: string := "DESCRIPTION_END"
  const QuoteStart: string := "QUOTE_START"
  const QuoteEnd: string := "QUOTE_END"
  const NoteStart: string := "NOTE_START"
  const NoteEnd: string := "NOTE_END"
  /** Written in place of the id of an absent genre. */
  const NullGenreId: string := "NULL_GENRE_ID"

  // ---------------------------------------------------------------------
  // Saving
  // ---------------------------------------------------------------------

  /** The lines written for one book, and the exception that cut them short. */
  datatype Emitted = Emitted(lines: seq<string>, failure: Option<JavaException>)

  /** The value after `BOOK_START: `, from the runtime class. */
  function KindName(k: Kind): string
  {
    if k.Ebook? then "EBOOK" else "PHYSICAL"
  }

  /** What `GENRE_ID: ` is followed by. */
  function GenreRefText(g: Genre?): string
  {
    if g != null then g.id else NullGenreId
  }

  /** A start tag, the text written as is, and an end tag. */
  function TextBlock(startTag: string, text: string, endTag: string): seq<string>
  {
    [startTag] + SplitLines(text) + [endTag]
  }

  /** One text block per text, in list order. */
  function Blocks(startTag: string, texts: seq<string>, endTag: string): (lines: seq<string>)
    ensures |lines| >= 3 * |texts|
  {
    if texts == [] then []
    else TextBlock(startTag, texts[0], endTag) + Blocks(startTag, texts[1..], endTag)
  }

  /** The lines up to the rating. A number's text holds no line break, so
      it is one line. */
  function LeadLines(b: BookValue): seq<string>
  {
    [BookStartTag + KindName(b.kind)]
    + SplitLines(IdTag + JavaStr(b.id))
    + SplitLines(TitleTag + JavaStr(b.title))
    + SplitLines(AuthorTag + JavaStr(b.author))
    + SplitLines(PublisherTag + JavaStr(b.publisher))
    + [TotalPagesTag + IntToString(b.totalPages)]
    + [CurrentPageTag + IntToString(b.currentPage)]
    + [RatingTag + IntToString(b.rating)]
  }

  /** The `LOCAL:` line, written for an e-book only. */
  function LocalLines(k: Kind): seq<string>
  {
    match k
    case Physical => []
    case Ebook(local) => SplitLines(LocalTag + JavaStr(local))
  }

  /** The single-line fields: the lead, the status, the genre reference and
      an e-book's location. */
  function FieldLines(b: BookValue, s: BookStatus): seq<string>
  {
    LeadLines(b) + [StatusTag + Name(s)] + SplitLines(GenreIdTag + GenreRefText(b.genre))
    + LocalLines(b.kind)
  }

  /** `saveBooks` for one book. A null status fails (`getStatus().name()`)
      after the rating line; a null description fails (`write(null)`) after
      the `DESCRIPTION_START` line. */
  function EncodeBook(b: BookValue): (e: Emitted)
    ensures e.failure.None? <==> b.status.Some? && b.description.Some?
    ensures e.failure.Some? ==> e.failure == Some(NullPointer)
    ensures |e.lines| >= 1 && e.lines[0] == BookStartTag + KindName(b.kind)
  {
    match b.status
    case None => Emitted(LeadLines(b), Some(NullPointer))
    case Some(s) =>
      match b.description
      case None => Emitted(FieldLines(b, s) + [DescriptionStart], Some(NullPointer))
      case Some(d) =>
        Emitted(FieldLines(b, s) + TextBlock(DescriptionStart, d, DescriptionEnd)
                + Blocks(QuoteStart, b.quotes, QuoteEnd)
                + Blocks(NoteStart, b.notes, NoteEnd)
                + [BookEndTag, ""], None)
  }

  /** `saveBooks`: the records in list order; the first failure ends the
      file after the lines already written. */
  function EncodeBooks(bs: seq<BookValue>): (e: Emitted)
    ensures e.failure.Some? ==> e.failure == Some(NullPointer)
  {
    if bs == [] then Emitted([], None)
    else
      var first := EncodeBook(bs[0]);
      if first.failure.Some? then first
      else
        var rest := EncodeBooks(bs[1..]);
        Emitted(first.lines + rest.lines, rest.failure)
  }

  /** Saving the list fails exactly when one of its books has a null status
      or a null description. */
  lemma {:induction false} EncodeBooksFails(bs: seq<BookValue>)
    ensures EncodeBooks(bs).failure.None? <==> forall b :: b in bs ==> b.status.Some? && b.description.Some?
  {
    if bs != [] {
      EncodeBooksFails(bs[1..]);
      assert forall b :: b in bs <==> b == bs[0] || b in bs[1..];
    }
  }

  /** The record of a book that saves without failing, in its parts. */
  lemma RecordParts(b: BookValue)
    requires b.status.Some? && b.description.Some?
    ensures EncodeBook(b).lines
            == FieldLines(b, b.status.value) + TextBlock(DescriptionStart, b.description.value, DescriptionEnd)
               + Blocks(QuoteStart, b.quotes, QuoteEnd) + Blocks(NoteStart, b.notes, NoteEnd)
               + [BookEndTag, ""]
  {
  }

  /** A book with a null status is saved up to its rating line. */
  lemma EncodeWithoutStatus(b: BookValue)
    requires b.status.None?
    ensures EncodeBook(b) == Emitted(LeadLines(b), Some(NullPointer))
  {
  }

  /** A book with a status but a null description is saved up to
      `DESCRIPTION_START`. */
  lemma EncodeWithoutDescription(b: BookValue)
    requires b.status.Some? && b.description.None?
    ensures EncodeBook(b) == Emitted(FieldLines(b, b.status.value) + [DescriptionStart], Some(NullPointer))
  {
  }

  /** A list whose first book saves is saved as that record and then the
      rest. */
  lemma EncodeBooksCons(bs: seq<BookValue>)
    requires bs != [] && EncodeBook(bs[0]).failure.None?
    ensures EncodeBooks(bs).lines == EncodeBook(bs[0]).lines + EncodeBooks(bs[1..]).lines
    ensures EncodeBooks(bs).failure == EncodeBooks(bs[1..]).failure
  {
  }

  /** A list whose first book fails is saved as that book's partial
      record and nothing more. */
  lemma EncodeBooksHeadFails(bs: seq<BookValue>)
    requires bs != [] && EncodeBook(bs[0]).failure.Some?
    ensures EncodeBooks(bs) == EncodeBook(bs[0])
  {
  }

  // ---------------------------------------------------------------------
  // Loading
  // ---------------------------------------------------------------------

  /** The single-line text fields. */
  datatype TextField = IdField | TitleField | AuthorField | PublisherField | LocalField

  /** The `int` fields, read with `Integer.parseInt`. */
  datatype NumberField = TotalPagesField | CurrentPageField | RatingField

  function TextTag(f: TextField): string
  {
    match f
    case IdField => IdTag
    case TitleField => TitleTag
    case AuthorField => AuthorTag
    case PublisherField => PublisherTag
    case LocalField => LocalTag
  }

  function NumberTag(f: NumberField): string
  {
    match f
    case TotalPagesField => TotalPagesTag
    case CurrentPageField => CurrentPageTag
    case RatingField => RatingTag
  }

  /** What a line outside a text block means. */
  datatype LineKind =
    | StartRecord(ebook: bool)
    | TextLine(field: TextField, value: string)
    | NumberLine(numberField: NumberField, digits: string)
    | StatusLine(name: string)
    | GenreRef(genreId: string)
    | OpenBlock
    | EndRecord
    | Ignored

  /** The tests of `loadBooks` in their order: prefixes first, then whole
      lines. The three block starts act alike: `readingMode` is only ever
      tested against null. */
  function Classify(line: string): (k: LineKind)
    ensures k.StartRecord? <==> StartsWith(line, BookStartTag)
    ensures k.StartRecord? ==> (k.ebook <==> line[|BookStartTag|..] == "EBOOK")
    ensures k.TextLine? ==> line == TextTag(k.field) + k.value
    ensures k.NumberLine? ==> line == NumberTag(k.numberField) + k.digits
    ensures k.StatusLine? ==> line == StatusTag + k.name
    ensures k.GenreRef? ==> line == GenreIdTag + k.genreId
    ensures k.OpenBlock? ==> line == DescriptionStart || line == QuoteStart || line == NoteStart
    ensures k.EndRecord? ==> line == BookEndTag
  {
    if StartsWith(line, BookStartTag) then StartRecord(line[|BookStartTag|..] == "EBOOK")
    else if StartsWith(line, IdTag) then TextLine(IdField, line[|IdTag|..])
    else if StartsWith(line, TitleTag) then TextLine(TitleField, line[|TitleTag|..])
    else if StartsWith(line, AuthorTag) then TextLine(AuthorField, line[|AuthorTag|..])
    else if StartsWith(line, PublisherTag) then TextLine(PublisherField, line[|PublisherTag|..])
    else if StartsWith(line, TotalPagesTag) then NumberLine(TotalPagesField, line[|TotalPagesTag|..])
    else if StartsWith(line, CurrentPageTag) then NumberLine(CurrentPageField, line[|CurrentPageTag|..])
    else if StartsWith(line, RatingTag) then NumberLine(RatingField, line[|RatingTag|..])
    else if StartsWith(line, StatusTag) then StatusLine(line[|StatusTag|..])
    else if StartsWith(line, GenreIdTag) then GenreRef(line[|GenreIdTag|..])
    else if StartsWith(line, LocalTag) then TextLine(LocalField, line[|LocalTag|..])
    else if line == DescriptionStart || line == QuoteStart || line == NoteStart then OpenBlock
    else if line == BookEndTag then EndRecord
    else Ignored
  }

  /** The `BookBuilder`: what has been read of the current record. */
  datatype Builder = Builder(
    isEbook: bool,
    id: Option<string>,
    title: Option<string>,
    author: Option<string>,
    publisher: Option<string>,
    local: Option<string>,
    totalPages: Int32,
    currentPage: Int32,
    rating: Int32,
    status: Option<BookStatus>,
    genre: Genre?,
    description: string,
    notes: seq<string>,
    quotes: seq<string>)

  /** A fresh builder: Java's field defaults, an empty description and
      empty lists. */
  function NewBuilder(isEbook: bool): Builder
  {
    Builder(isEbook, None, None, None, None, None, 0, 0, 0, None, null, "", [], [])
  }

  function SetText(b: Builder, f: TextField, v: string): Builder
  {
    match f
    case IdField => b.(id := Some(v))
    case TitleField => b.(title := Some(v))
    case AuthorField => b.(author := Some(v))
    case PublisherField => b.(publisher := Some(v))
    case LocalField => b.(local := Some(v))
  }

  function SetNumber(b: Builder, f: NumberField, n: Int32): Builder
  {
    match f
    case TotalPagesField => b.(totalPages := n)
    case CurrentPageField => b.(currentPage := n)
    case RatingField => b.(rating := n)
  }

  /** `BookBuilder.build()`: an `Ebook` with `local`, or a `PhysicalBook`,
      through the full constructor (so a missing status becomes TO_READ). */
  function Build(b: Builder): BookValue
  {
    Restored(if b.isEbook then Ebook(b.local) else Physical, b.id, b.title, b.author,
             b.totalPages, b.publisher, Some(b.description), b.genre, b.status, b.rating,
             b.currentPage, Some(b.notes), Some(b.quotes))
  }

  /** A genre with the given id (`stream().filter(...).findFirst()`), or
      null when there is none; `FirstGenreFound` says it is the first. */
  function FindGenre(genres: seq<Genre>, id: string): (r: Genre?)
    ensures r != null ==> r.id == id && r in genres
    ensures r == null <==> forall g :: g in genres ==> g.id != id
  {
    if genres == [] then null
    else if genres[0].id == id then genres[0]
    else
      assert forall g :: g in genres ==> g == genres[0] || g in genres[1..];
      FindGenre(genres[1..], id)
  }

  /** The genre found is the first one in the list with that id. */
  lemma {:induction false} FirstGenreFound(genres: seq<Genre>, id: string, i: nat)
    requires i < |genres| && genres[i].id == id
    requires forall j :: 0 <= j < i ==> genres[j].id != id
    ensures FindGenre(genres, id) == genres[i]
  {
    if i > 0 {
      FirstGenreFound(genres[1..], id, i - 1);
    }
  }

  /** The state of `loadBooks` between two lines. */
  datatype Machine = Machine(books: seq<BookValue>, builder: Option<Builder>, block: Option<string>)

  const Start: Machine := Machine([], None, None)

  /** One line's effect: go on, stop reading and keep the finished books
      (a caught `NumberFormatException`), or throw out of `loadBooks`. */
  datatype Progress = Continue(next: Machine) | Stopped(kept: seq<BookValue>) | Crashed(error: JavaException)

  predicate IsEndTag(line: string)
  {
    line == DescriptionEnd || line == QuoteEnd || line == NoteEnd
  }

  /** A text line added to the block buffer: a `"\n"` goes in front only
      when the buffer is not empty. */
  function AppendLine(text: string, line: string): string
  {
    if |text| > 0 then text + "\n" + line else line
  }

  /** Where the text of a closed block goes: the end tag decides. */
  function CloseBlock(b: Builder, endTag: string, text: string): Builder
  {
    if endTag == DescriptionEnd then b.(description := text)
    else if endTag == QuoteEnd then b.(quotes := b.quotes + [text])
    else b.(notes := b.notes + [text])
  }

  /** A field line inside an open record. */
  function Assign(m: Machine, b: Builder, k: LineKind, genres: seq<Genre>): Progress
  {
    match k
    case TextLine(f, v) => Continue(m.(builder := Some(SetText(b, f, v))))
    case NumberLine(f, digits) =>
      (match ParseInt(digits)
       case None => Stopped(m.books)
       case Some(n) => Continue(m.(builder := Some(SetNumber(b, f, n)))))
    case StatusLine(name) =>
      (match ValueOf(name)
       case None => Crashed(IllegalArgument)
       case Some(s) => Continue(m.(builder := Some(b.(status := Some(s))))))
    case GenreRef(id) => Continue(m.(builder := Some(b.(genre := FindGenre(genres, id)))))
    case _ => Continue(m)
  }

  /** One pass of the `while` loop of `loadBooks`. */
  function Step(m: Machine, line: string, genres: seq<Genre>): Progress
  {
    match m.block
    case Some(text) =>
      if IsEndTag(line) then
        match m.builder
        case None => Crashed(NullPointer)
        case Some(b) => Continue(Machine(m.books, Some(CloseBlock(b, line, text)), None))
      else Continue(m.(block := Some(AppendLine(text, line))))
    case None =>
      match Classify(line)
      case StartRecord(ebook) => Continue(m.(builder := Some(NewBuilder(ebook))))
      case OpenBlock => Continue(m.(block := Some("")))
      case EndRecord =>
        (match m.builder
         case None => Continue(m)
         case Some(b) => Continue(Machine(m.books + [Build(b)], None, None)))
      case Ignored => Continue(m)
      case _ =>
        (match m.builder
         case None => Continue(m)
         case Some(b) => Assign(m, b, Classify(line), genres))
  }

  /** The loop over the remaining lines. */
  function Run(m: Machine, lines: seq<string>, genres: seq<Genre>): Progress
    decreases |lines|
  {
    if lines == [] then Continue(m)
    else
      match Step(m, lines[0], genres)
      case Continue(next) => Run(next, lines[1..], genres)
      case other => other
  }

  /** Going on from where a run left off. */
  function Then(p: Progress, lines: seq<string>, genres: seq<Genre>): Progress
  {
    match p
    case Continue(m) => Run(m, lines, genres)
    case _ => p
  }

  /** What `loadBooks` returns, or the exception it throws. */
  datatype LoadResult = Loaded(books: seq<BookValue>) | Threw(error: JavaException)

  /** The end of the file: an unfinished record or block is dropped. */
  function Outcome(p: Progress): LoadResult
  {
    match p
    case Continue(m) => Loaded(m.books)
    case Stopped(kept) => Loaded(kept)
    case Crashed(e) => Threw(e)
  }

  /** `loadBooks`: a missing file yields no books. */
  function DecodeBooks(file: Option<seq<string>>, genres: seq<Genre>): (r: LoadResult)
    ensures file.None? ==> r == Loaded([])
  {
    match file
    case None => Loaded([])
    case Some(lines) => Outcome(Run(Start, lines, genres))
  }
}
