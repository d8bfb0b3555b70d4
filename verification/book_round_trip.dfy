/** Loading what `saveBooks` wrote gives the same books back, field for
    field, when every book is storable; and what the file looks like. */
module BookRoundTrip {
  import opened JavaLang
  import opened JavaInt
  import opened JavaText
  import opened Status
  import opened Genres
  import opened Books
  import opened BookCodec
  import opened BookLoading
  import opened Sequences

  /** A non-null single-line text. */
  predicate OneLine(s: Option<string>)
  {
    s.Some? && '\n' !in s.value
  }

  /** The books whose record reads back as the book:
      - id, title, author, publisher (and an e-book's location) are non-null
        and hold no line break (null would read back as the text "null");
      - status and description are non-null (saving fails otherwise);
      - description, quotes and notes hold no end-tag line and do not start
        with a line break;
      - the genre is the first loaded genre with its id, and an absent genre
        is one for which no loaded genre has the id `NULL_GENRE_ID`. */
  predicate Storable(b: BookValue, genres: seq<Genre>)
  {
    && OneLine(b.id) && OneLine(b.title) && OneLine(b.author) && OneLine(b.publisher)
    && (b.kind.Ebook? ==> OneLine(b.kind.local))
    && b.status.Some?
    && b.description.Some? && BlockText(b.description.value)
    && (forall q :: q in b.quotes ==> BlockText(q))
    && (forall n :: n in b.notes ==> BlockText(n))
    && '\n' !in GenreRefText(b.genre)
    && FindGenre(genres, GenreRefText(b.genre)) == b.genre
  }

  /** The builder once every single-line field of `b` has been read. */
  function FieldsRead(b: BookValue): Builder
  {
    NewBuilder(b.kind.Ebook?).(id := b.id, title := b.title, author := b.author,
                               publisher := b.publisher, totalPages := b.totalPages,
                               currentPage := b.currentPage, rating := b.rating,
                               status := b.status, genre := b.genre,
                               local := if b.kind.Ebook? then b.kind.local else None)
  }

  /** One more line that continues the run. */
  lemma RunThen(m: Machine, xs: seq<string>, line: string, genres: seq<Genre>, mid: Machine, last: Machine)
    requires Run(m, xs, genres) == Continue(mid)
    requires Step(mid, line, genres) == Continue(last)
    ensures Run(m, xs + [line], genres) == Continue(last)
  {
    RunAppend(m, xs, [line], genres);
    RunSingle(mid, line, genres);
  }

  /** Two runs that each end in a state chain into one run. */
  lemma ChainRuns(m: Machine, xs: seq<string>, ys: seq<string>, mid: Machine, last: Machine,
                  genres: seq<Genre>)
    requires Run(m, xs, genres) == Continue(mid)
    requires Run(mid, ys, genres) == Continue(last)
    ensures Run(m, xs + ys, genres) == Continue(last)
  {
    RunAppend(m, xs, ys, genres);
  }

  /** Appending a list's head and then its tail appends the list. */
  lemma ConsAppend(books: seq<BookValue>, bs: seq<BookValue>)
    requires bs != []
    ensures books + [bs[0]] + bs[1..] == books + bs
  {
    assert bs == [bs[0]] + bs[1..];
  }

  /** A tag and a single-line value are written as one line. */
  lemma TaggedLine(tag: string, v: string)
    requires '\n' !in tag && '\n' !in v
    ensures SplitLines(tag + v) == [tag + v]
  {
    SingleLine(tag + v);
  }

  /** The lines before the status, for a storable book. */
  lemma LeadLinesOfStorable(b: BookValue, genres: seq<Genre>)
    requires Storable(b, genres)
    ensures LeadLines(b)
            == [BookStartTag + KindName(b.kind)]
               + [IdTag + b.id.value] + [TitleTag + b.title.value]
               + [AuthorTag + b.author.value] + [PublisherTag + b.publisher.value]
               + [TotalPagesTag + IntToString(b.totalPages)]
               + [CurrentPageTag + IntToString(b.currentPage)]
               + [RatingTag + IntToString(b.rating)]
  {
    TaggedLine(IdTag, b.id.value);
    TaggedLine(TitleTag, b.title.value);
    TaggedLine(AuthorTag, b.author.value);
    TaggedLine(PublisherTag, b.publisher.value);
  }

  /** Reading the kind line and the four single-line texts. */
  lemma RunTexts(books: seq<BookValue>, kind: string, id: string, title: string, author: string,
                 publisher: string, genres: seq<Genre>)
    ensures Run(Machine(books, None, None),
                [BookStartTag + kind] + [IdTag + id] + [TitleTag + title] + [AuthorTag + author]
                + [PublisherTag + publisher], genres)
            == Continue(Machine(books, Some(NewBuilder(kind == "EBOOK").(
                 id := Some(id), title := Some(title), author := Some(author),
                 publisher := Some(publisher))), None))
  {
    var m := Machine(books, None, None);
    var b0 := NewBuilder(kind == "EBOOK");
    var m0 := Machine(books, Some(b0), None);
    StepStart(m, kind, genres);
    RunSingle(m, BookStartTag + kind, genres);

    var m1 := Machine(books, Some(b0.(id := Some(id))), None);
    StepText(m0, b0, IdField, id, genres);
    RunThen(m, [BookStartTag + kind], IdTag + id, genres, m0, m1);
    var xs := [BookStartTag + kind] + [IdTag + id];

    var m2 := Machine(books, Some(m1.builder.value.(title := Some(title))), None);
    StepText(m1, m1.builder.value, TitleField, title, genres);
    RunThen(m, xs, TitleTag + title, genres, m1, m2);
    xs := xs + [TitleTag + title];

    var m3 := Machine(books, Some(m2.builder.value.(author := Some(author))), None);
    StepText(m2, m2.builder.value, AuthorField, author, genres);
    RunThen(m, xs, AuthorTag + author, genres, m2, m3);
    xs := xs + [AuthorTag + author];

    var m4 := Machine(books, Some(m3.builder.value.(publisher := Some(publisher))), None);
    StepText(m3, m3.builder.value, PublisherField, publisher, genres);
    RunThen(m, xs, PublisherTag + publisher, genres, m3, m4);
  }

  /** Reading the three number lines into an open record. */
  lemma RunNumbers(books: seq<BookValue>, b: Builder, total: Int32, current: Int32, rating: Int32,
                   genres: seq<Genre>)
    ensures Run(Machine(books, Some(b), None),
                [TotalPagesTag + IntToString(total)] + [CurrentPageTag + IntToString(current)]
                + [RatingTag + IntToString(rating)], genres)
            == Continue(Machine(books, Some(b.(totalPages := total, currentPage := current,
                                               rating := rating)), None))
  {
    var m := Machine(books, Some(b), None);
    var m1 := Machine(books, Some(b.(totalPages := total)), None);
    StepNumber(m, b, TotalPagesField, total, genres);
    RunSingle(m, TotalPagesTag + IntToString(total), genres);

    var m2 := Machine(books, Some(m1.builder.value.(currentPage := current)), None);
    StepNumber(m1, m1.builder.value, CurrentPageField, current, genres);
    RunThen(m, [TotalPagesTag + IntToString(total)], CurrentPageTag + IntToString(current), genres, m1, m2);
    var xs := [TotalPagesTag + IntToString(total)] + [CurrentPageTag + IntToString(current)];

    var m3 := Machine(books, Some(m2.builder.value.(rating := rating)), None);
    StepNumber(m2, m2.builder.value, RatingField, rating, genres);
    RunThen(m, xs, RatingTag + IntToString(rating), genres, m2, m3);
  }

  /** Reading the lines up to the rating. */
  lemma RunLead(books: seq<BookValue>, b: BookValue, genres: seq<Genre>)
    requires Storable(b, genres)
    ensures Run(Machine(books, None, None), LeadLines(b), genres)
            == Continue(Machine(books, Some(NewBuilder(b.kind.Ebook?).(
                 id := b.id, title := b.title, author := b.author, publisher := b.publisher,
                 totalPages := b.totalPages, currentPage := b.currentPage, rating := b.rating)), None))
  {
    LeadLinesOfStorable(b, genres);
    var texts := [BookStartTag + KindName(b.kind)] + [IdTag + b.id.value] + [TitleTag + b.title.value]
                 + [AuthorTag + b.author.value] + [PublisherTag + b.publisher.value];
    var total := [TotalPagesTag + IntToString(b.totalPages)];
    var current := [CurrentPageTag + IntToString(b.currentPage)];
    var rating := [RatingTag + IntToString(b.rating)];
    RunTexts(books, KindName(b.kind), b.id.value, b.title.value, b.author.value, b.publisher.value, genres);
    var bt := NewBuilder(KindName(b.kind) == "EBOOK").(
                id := b.id, title := b.title, author := b.author, publisher := b.publisher);
    assert (KindName(b.kind) == "EBOOK") == b.kind.Ebook?;
    RunNumbers(books, bt, b.totalPages, b.currentPage, b.rating, genres);
    ChainRuns(Machine(books, None, None), texts, total + current + rating,
              Machine(books, Some(bt), None),
              Machine(books, Some(bt.(totalPages := b.totalPages, currentPage := b.currentPage,
                                      rating := b.rating)), None), genres);
    AppendAssoc(texts + total, current, rating);
    AppendAssoc(texts, total, current);
    AppendAssoc(texts, total + current, rating);
  }

  /** Reading the lines up to the genre reference. */
  lemma RunToGenre(books: seq<BookValue>, b: BookValue, genres: seq<Genre>)
    requires Storable(b, genres)
    ensures Run(Machine(books, None, None),
                LeadLines(b) + [StatusTag + Name(b.status.value)] + [GenreIdTag + GenreRefText(b.genre)],
                genres)
            == Continue(Machine(books, Some(FieldsRead(b).(local := None)), None))
  {
    var m := Machine(books, None, None);
    RunLead(books, b, genres);
    var b7 := NewBuilder(b.kind.Ebook?).(
                 id := b.id, title := b.title, author := b.author, publisher := b.publisher,
                 totalPages := b.totalPages, currentPage := b.currentPage, rating := b.rating);
    var m7 := Machine(books, Some(b7), None);
    var s := b.status.value;
    var xs := LeadLines(b);

    var b8 := b7.(status := b.status);
    var m8 := Machine(books, Some(b8), None);
    StepStatus(m7, b7, s, genres);
    RunThen(m, xs, StatusTag + Name(s), genres, m7, m8);
    xs := xs + [StatusTag + Name(s)];

    var ref := GenreRefText(b.genre);
    var b9 := b8.(genre := b.genre);
    StepGenreRef(m8, b8, ref, genres);
    RunThen(m, xs, GenreIdTag + ref, genres, m8, Machine(books, Some(b9), None));
    assert b9 == FieldsRead(b).(local := None);
  }

  /** Reading every single-line field. */
  lemma RunFields(books: seq<BookValue>, b: BookValue, genres: seq<Genre>)
    requires Storable(b, genres)
    ensures Run(Machine(books, None, None), FieldLines(b, b.status.value), genres)
            == Continue(Machine(books, Some(FieldsRead(b)), None))
  {
    var m := Machine(books, None, None);
    var xs := LeadLines(b) + [StatusTag + Name(b.status.value)] + [GenreIdTag + GenreRefText(b.genre)];
    var local := if b.kind.Ebook? then [LocalTag + b.kind.local.value] else [];
    RunToGenre(books, b, genres);
    FieldLinesOfStorable(b, genres);
    var b9 := FieldsRead(b).(local := None);
    var m9 := Machine(books, Some(b9), None);
    var last := Machine(books, Some(FieldsRead(b)), None);
    if b.kind.Ebook? {
      RunLocal(books, b9, b.kind.local.value, genres);
      assert SetText(b9, LocalField, b.kind.local.value) == FieldsRead(b);
    } else {
      assert b9 == FieldsRead(b);
    }
    ChainRuns(m, xs, local, m9, last, genres);
  }

  /** Reading an e-book's `LOCAL:` line into an open record. */
  lemma RunLocal(books: seq<BookValue>, b: Builder, local: string, genres: seq<Genre>)
    ensures Run(Machine(books, Some(b), None), [LocalTag + local], genres)
            == Continue(Machine(books, Some(SetText(b, LocalField, local)), None))
  {
    StepText(Machine(books, Some(b), None), b, LocalField, local, genres);
    RunSingle(Machine(books, Some(b), None), LocalTag + local, genres);
  }

  /** Reading a storable book's record up to `BOOK_END`: every field and
      block has been read into the builder. */
  lemma RunBody(books: seq<BookValue>, b: BookValue, genres: seq<Genre>)
    requires Storable(b, genres)
    ensures Run(Machine(books, None, None),
                FieldLines(b, b.status.value) + TextBlock(DescriptionStart, b.description.value, DescriptionEnd)
                + Blocks(QuoteStart, b.quotes, QuoteEnd) + Blocks(NoteStart, b.notes, NoteEnd),
                genres)
            == Continue(Machine(books, Some(FieldsRead(b).(description := b.description.value,
                                                            quotes := b.quotes, notes := b.notes)), None))
  {
    var m := Machine(books, None, None);
    var d := b.description.value;
    var fields := FieldLines(b, b.status.value);
    var desc := TextBlock(DescriptionStart, d, DescriptionEnd);
    var quotes := Blocks(QuoteStart, b.quotes, QuoteEnd);
    var notes := Blocks(NoteStart, b.notes, NoteEnd);

    RunFields(books, b, genres);
    var f := FieldsRead(b);
    var mf := Machine(books, Some(f), None);

    RunTextBlock(mf, f, DescriptionStart, d, DescriptionEnd, genres);
    var fd := f.(description := d);
    assert CloseBlock(f, DescriptionEnd, d) == fd;
    var md := Machine(books, Some(fd), None);
    ChainRuns(m, fields, desc, mf, md, genres);

    RunBlocks(md, fd, QuoteStart, b.quotes, QuoteEnd, genres);
    CloseAllQuotes(fd, b.quotes);
    assert fd.quotes + b.quotes == b.quotes;
    var fq := fd.(quotes := b.quotes);
    var mq := Machine(books, Some(fq), None);
    ChainRuns(m, fields + desc, quotes, md, mq, genres);

    RunBlocks(mq, fq, NoteStart, b.notes, NoteEnd, genres);
    CloseAllNotes(fq, b.notes);
    assert fq.notes + b.notes == b.notes;
    ChainRuns(m, fields + desc + quotes, notes, mq, Machine(books, Some(fq.(notes := b.notes)), None), genres);
  }

  /** One storable book's record, read after any finished books, adds that
      very book and leaves no record or block open. */
  lemma RecordRoundTrip(books: seq<BookValue>, b: BookValue, genres: seq<Genre>)
    requires Storable(b, genres)
    ensures EncodeBook(b).failure.None?
    ensures Run(Machine(books, None, None), EncodeBook(b).lines, genres)
            == Continue(Machine(books + [b], None, None))
  {
    var m := Machine(books, None, None);
    var body := FieldLines(b, b.status.value) + TextBlock(DescriptionStart, b.description.value, DescriptionEnd)
                + Blocks(QuoteStart, b.quotes, QuoteEnd) + Blocks(NoteStart, b.notes, NoteEnd);
    RecordParts(b);
    RunBody(books, b, genres);
    var fn := FieldsRead(b).(description := b.description.value, quotes := b.quotes, notes := b.notes);
    assert Build(fn) == b;
    RunRecordEnd(books, fn, genres);
    ChainRuns(m, body, [BookEndTag, ""], Machine(books, Some(fn), None), Machine(books + [b], None, None),
              genres);
  }

  /** `BOOK_END` adds the built book; the empty line after it is skipped. */
  lemma RunRecordEnd(books: seq<BookValue>, b: Builder, genres: seq<Genre>)
    ensures Run(Machine(books, Some(b), None), [BookEndTag, ""], genres)
            == Continue(Machine(books + [Build(b)], None, None))
  {
    var done := Machine(books + [Build(b)], None, None);
    EndRecordAppends(books, Some(b), genres);
    ClassifyRecordEnd();
    RunTwo(Machine(books, Some(b), None), BookEndTag, "", genres);
    RunSingle(done, "", genres);
  }

  /** The records of storable books, read after any finished books, add
      those books in order. */
  lemma {:induction false} RecordsRoundTrip(books: seq<BookValue>, bs: seq<BookValue>, genres: seq<Genre>)
    requires forall b :: b in bs ==> Storable(b, genres)
    ensures EncodeBooks(bs).failure.None?
    ensures Run(Machine(books, None, None), EncodeBooks(bs).lines, genres)
            == Continue(Machine(books + bs, None, None))
    decreases |bs|
  {
    if bs == [] {
      assert books + bs == books;
    } else {
      var first := EncodeBook(bs[0]).lines;
      var rest := EncodeBooks(bs[1..]).lines;
      assert bs[0] in bs;
      assert forall b :: b in bs[1..] ==> b in bs;
      RecordRoundTrip(books, bs[0], genres);
      EncodeBooksCons(bs);
      RecordsRoundTrip(books + [bs[0]], bs[1..], genres);
      var mid := Machine(books + [bs[0]], None, None);
      ChainRuns(Machine(books, None, None), first, rest, mid,
                Machine(books + [bs[0]] + bs[1..], None, None), genres);
      ConsAppend(books, bs);
    }
  }

  /** `loadBooks` after `saveBooks` gives back the saved books, in order,
      field for field, when every book is storable against the loaded
      genres. */
  lemma BooksRoundTrip(bs: seq<BookValue>, genres: seq<Genre>)
    requires forall b :: b in bs ==> Storable(b, genres)
    ensures EncodeBooks(bs).failure.None?
    ensures DecodeBooks(Some(EncodeBooks(bs).lines), genres) == Loaded(bs)
  {
    RecordsRoundTrip([], bs, genres);
    assert [] + bs == bs;
  }

  /** Whatever follows the last `BOOK_END` adds no book: the saved books
      are loaded, unless a line of the rest throws. */
  lemma TrailingPartialRecordDropped(bs: seq<BookValue>, rest: seq<string>, genres: seq<Genre>)
    requires forall b :: b in bs ==> Storable(b, genres)
    requires forall l :: l in rest ==> l != BookEndTag
    ensures DecodeBooks(Some(EncodeBooks(bs).lines + rest), genres) == Loaded(bs)
            || DecodeBooks(Some(EncodeBooks(bs).lines + rest), genres).Threw?
  {
    RecordsRoundTrip([], bs, genres);
    assert [] + bs == bs;
    RunAppend(Start, EncodeBooks(bs).lines, rest, genres);
    BooksOnlyAtRecordEnd(Machine(bs, None, None), rest, genres);
  }

  /** A number that does not parse in the record after the saved ones
      stops reading: the saved books are the result, later ones are lost. */
  lemma BadNumberKeepsEarlierBooks(bs: seq<BookValue>, kind: string, f: NumberField, digits: string,
                                   rest: seq<string>, genres: seq<Genre>)
    requires forall b :: b in bs ==> Storable(b, genres)
    requires ParseInt(digits).None?
    ensures DecodeBooks(Some(EncodeBooks(bs).lines + [BookStartTag + kind] + [NumberTag(f) + digits] + rest), genres)
            == Loaded(bs)
  {
    var saved := EncodeBooks(bs).lines;
    var m := Machine(bs, None, None);
    var started := Machine(bs, Some(NewBuilder(kind == "EBOOK")), None);
    RecordsRoundTrip([], bs, genres);
    assert [] + bs == bs;
    ClassifyStart(kind);
    RunThen(Start, saved, BookStartTag + kind, genres, m, started);
    BadNumberStops(started, NewBuilder(kind == "EBOOK"), f, digits, rest, genres);
    RunAppend(Start, saved + [BookStartTag + kind], [NumberTag(f) + digits] + rest, genres);
    AppendAssoc(saved + [BookStartTag + kind], [NumberTag(f) + digits], rest);
  }

  /** The single-line fields of a storable book, one line each. */
  lemma FieldLinesOfStorable(b: BookValue, genres: seq<Genre>)
    requires Storable(b, genres)
    ensures FieldLines(b, b.status.value)
            == LeadLines(b) + [StatusTag + Name(b.status.value)] + [GenreIdTag + GenreRefText(b.genre)]
               + (if b.kind.Ebook? then [LocalTag + b.kind.local.value] else [])
  {
    TaggedLine(GenreIdTag, GenreRefText(b.genre));
    if b.kind.Ebook? {
      TaggedLine(LocalTag, b.kind.local.value);
    }
  }

  /** The record of a book with single-line fields: the kind, the nine
      fields in fixed order (`NULL_GENRE_ID` for no genre), `LOCAL:` only
      for an e-book, then the description block. */
  lemma RecordLayout(b: BookValue, genres: seq<Genre>)
    requires Storable(b, genres)
    ensures var header := [BookStartTag + KindName(b.kind)]
                          + [IdTag + b.id.value] + [TitleTag + b.title.value]
                          + [AuthorTag + b.author.value] + [PublisherTag + b.publisher.value]
                          + [TotalPagesTag + IntToString(b.totalPages)]
                          + [CurrentPageTag + IntToString(b.currentPage)]
                          + [RatingTag + IntToString(b.rating)]
                          + [StatusTag + Name(b.status.value)]
                          + [GenreIdTag + GenreRefText(b.genre)]
                          + (if b.kind.Ebook? then [LocalTag + b.kind.local.value] else [])
                          + [DescriptionStart];
            |EncodeBook(b).lines| > |header| && EncodeBook(b).lines[..|header|] == header
  {
    LeadLinesOfStorable(b, genres);
    FieldLinesOfStorable(b, genres);
    RecordOpensDescription(b);
  }

  /** After the single-line fields, a saved record opens the description. */
  lemma RecordOpensDescription(b: BookValue)
    requires b.status.Some? && b.description.Some?
    ensures var fields := FieldLines(b, b.status.value);
            |EncodeBook(b).lines| > |fields| + 1
            && EncodeBook(b).lines[..|fields| + 1] == fields + [DescriptionStart]
  {
    RecordParts(b);
    var fields := FieldLines(b, b.status.value);
    var rest := SplitLines(b.description.value) + [DescriptionEnd];
    var tail := Blocks(QuoteStart, b.quotes, QuoteEnd) + Blocks(NoteStart, b.notes, NoteEnd)
                + [BookEndTag, ""];
    assert TextBlock(DescriptionStart, b.description.value, DescriptionEnd) == [DescriptionStart] + rest;
    OpensWith(fields, DescriptionStart, rest, tail);
  }
}
