/** `DataManager`: reads and writes the genre file and the book file. A file
    is its list of lines, or `None` when it does not exist; the constructor's
    two file names stand for the two files. */
module Persistence {
  import opened JavaLang
  import opened JavaInt
  import opened JavaText
  import opened Status
  import opened Genres
  import opened Books
  import opened GenreCodec
  import opened BookCodec
  import opened Sequences

  // ---------------------------------------------------------------------
  // Facts about the saved lines that the writing loops rely on
  // ---------------------------------------------------------------------

  /** One more block is written after the others. */
  lemma {:induction false} BlocksSnoc(startTag: string, texts: seq<string>, t: string, endTag: string)
    ensures Blocks(startTag, texts + [t], endTag)
            == Blocks(startTag, texts, endTag) + TextBlock(startTag, t, endTag)
  {
    if texts == [] {
      assert [] + [t] == [t];
      assert Blocks(startTag, [t], endTag) == TextBlock(startTag, t, endTag) + Blocks(startTag, [], endTag);
    } else {
      assert (texts + [t])[0] == texts[0];
      assert (texts + [t])[1..] == texts[1..] + [t];
      BlocksSnoc(startTag, texts[1..], t, endTag);
    }
  }

  /** After books that saved without failing, one more book's lines follow,
      and its failure, if any, is the list's. */
  lemma {:induction false} EncodeBooksSnoc(bs: seq<BookValue>, b: BookValue)
    requires EncodeBooks(bs).failure.None?
    ensures EncodeBooks(bs + [b])
            == Emitted(EncodeBooks(bs).lines + EncodeBook(b).lines, EncodeBook(b).failure)
  {
    if bs == [] {
      assert [] + [b] == [b];
      if EncodeBook(b).failure.None? {
        EncodeBooksCons([b]);
        assert [b][1..] == [];
      } else {
        EncodeBooksHeadFails([b]);
      }
    } else {
      var longer := bs + [b];
      HeadOfAppend(bs, [b]);
      EncodeBooksCons(bs);
      EncodeBooksCons(longer);
      EncodeBooksSnoc(bs[1..], b);
      var first := EncodeBook(bs[0]).lines;
      var rest := EncodeBooks(bs[1..]).lines;
      assert EncodeBooks(longer).lines == first + (rest + EncodeBook(b).lines);
      AppendAssoc(first, rest, EncodeBook(b).lines);
    }
  }

  /** The lines written so far and one more book's lines: the saved
      prefix grows by one book. */
  lemma SaveStep(values: seq<BookValue>, i: nat, written: seq<string>,
                 lines: seq<string>, failure: Option<JavaException>)
    requires i < |values|
    requires EncodeBooks(values[..i]) == Emitted(written, None)
    requires Emitted(lines, failure) == EncodeBook(values[i])
    ensures EncodeBooks(values[..i + 1]) == Emitted(written + lines, failure)
  {
    TakeOneMore(values, i);
    EncodeBooksSnoc(values[..i], values[i]);
  }

  /** A prefix that fails is all of the list that is saved. */
  lemma FailedPrefixIsAll(values: seq<BookValue>, k: nat)
    requires k <= |values|
    requires EncodeBooks(values[..k]).failure.Some?
    ensures EncodeBooks(values) == EncodeBooks(values[..k])
  {
    TakeDrop(values, k);
    EncodeBooksStops(values[..k], values[k..]);
  }

  /** Once a book fails, nothing after it is written. */
  lemma {:induction false} EncodeBooksStops(bs: seq<BookValue>, rest: seq<BookValue>)
    requires EncodeBooks(bs).failure.Some?
    ensures EncodeBooks(bs + rest) == EncodeBooks(bs)
  {
    assert bs != [];
    var longer := bs + rest;
    HeadOfAppend(bs, rest);
    if EncodeBook(bs[0]).failure.None? {
      EncodeBooksCons(bs);
      EncodeBooksCons(longer);
      EncodeBooksStops(bs[1..], rest);
    } else {
      EncodeBooksHeadFails(bs);
      EncodeBooksHeadFails(longer);
    }
  }

  /** The states of a list one book longer. */
  lemma SnapshotsSnoc(bs: seq<Book>, b: Book)
    ensures Snapshots(bs + [b]) == Snapshots(bs) + [b.Value()]
  {
    assert (bs + [b])[..|bs|] == bs;
  }


  /** The genres of one more line of the file. */
  lemma DecodeGenreLinesSnoc(lines: seq<string>, i: nat)
    requires i < |lines|
    ensures DecodeGenreLines(lines[..i + 1]) == DecodeGenreLines(lines[..i]) + Accepted(lines[i])
  {
    TakeOneMore(lines, i);
    DecodeGenreLinesAppend(lines[..i], [lines[i]]);
    assert [lines[i]][1..] == [];
  }

  /** The states of a list one genre longer. */
  lemma RecordsSnoc(gs: seq<Genre>, g: Genre)
    ensures Records(gs + [g]) == Records(gs) + [g.Value()]
  {
    assert (gs + [g])[..|gs|] == gs;
  }

  // ---------------------------------------------------------------------
  // Facts about the reading loop
  // ---------------------------------------------------------------------

  /** The machine state the loop of `loadBooks` keeps in its variables:
      the text of the open block exists only while `readingMode` is set. */
  function BlockOf(readingMode: Option<string>, textBlock: string): Option<string>
  {
    if readingMode.Some? then Some(textBlock) else None
  }

  /** The run from line `i` on is one step and the run from line `i + 1`. */
  lemma RunFrom(m: Machine, lines: seq<string>, i: nat, genres: seq<Genre>)
    requires i < |lines|
    ensures Run(m, lines[i..], genres) == Then(Step(m, lines[i], genres), lines[i + 1..], genres)
  {
    assert lines[i..][0] == lines[i];
    assert lines[i..][1..] == lines[i + 1..];
  }

  /** `BookBuilder.build()`: a new `Ebook` or `PhysicalBook` holding what
      the builder read. */
  method BuildBook(b: Builder) returns (book: Book)
    ensures fresh(book)
    ensures book.Value() == Build(b)
  {
    if b.isEbook {
      book := new Book.LoadEbook(b.id, b.title, b.author, b.totalPages, b.publisher, Some(b.description),
                                 b.genre, b.status, b.rating, b.currentPage, Some(b.notes),
                                 Some(b.quotes), b.local);
    } else {
      book := new Book.LoadPhysical(b.id, b.title, b.author, b.totalPages, b.publisher,
                                    Some(b.description), b.genre, b.status, b.rating, b.currentPage,
                                    Some(b.notes), Some(b.quotes));
    }
  }

  /** The lines `saveBooks` writes for one book, field by field, and the
      `NullPointerException` of a null status or description. */
  method BookLines(b: Book) returns (lines: seq<string>, failure: Option<JavaException>)
    ensures Emitted(lines, failure) == EncodeBook(b.Value())
  {
    ghost var v := b.Value();
    lines := [BookStartTag + (if b.ebook then "EBOOK" else "PHYSICAL")];
    lines := lines + SplitLines(IdTag + JavaStr(b.id));
    lines := lines + SplitLines(TitleTag + JavaStr(b.title));
    lines := lines + SplitLines(AuthorTag + JavaStr(b.author));
    lines := lines + SplitLines(PublisherTag + JavaStr(b.publisher));
    lines := lines + [TotalPagesTag + IntToString(b.totalPages)];
    lines := lines + [CurrentPageTag + IntToString(b.currentPage)];
    lines := lines + [RatingTag + IntToString(b.rating)];
    assert lines == LeadLines(v);
    if b.status.None? {
      EncodeWithoutStatus(v);
      return lines, Some(NullPointer);
    }
    lines := lines + [StatusTag + Name(b.status.value)];
    lines := lines + SplitLines(GenreIdTag + (if b.genre != null then b.genre.id else NullGenreId));
    if b.ebook {
      lines := lines + SplitLines(LocalTag + JavaStr(b.local));
    }
    assert lines == FieldLines(v, b.status.value);
    ghost var fields := lines;
    lines := lines + [DescriptionStart];
    if b.description.None? {
      EncodeWithoutDescription(v);
      return lines, Some(NullPointer);
    }
    lines := lines + SplitLines(b.description.value) + [DescriptionEnd];
    GroupLast(fields, [DescriptionStart], SplitLines(b.description.value), [DescriptionEnd]);
    var quotes := BlockLines(QuoteStart, b.quotes, QuoteEnd);
    lines := lines + quotes;
    var notes := BlockLines(NoteStart, b.notes, NoteEnd);
    lines := lines + notes;
    // `BOOK_END`, its line break, and the line break of the empty line
    lines := lines + [BookEndTag, ""];
    RecordParts(v);
    failure := None;
  }

  /** The `for` loops over quotes and notes: one block per text, in list
      order. */
  method BlockLines(startTag: string, texts: seq<string>, endTag: string) returns (lines: seq<string>)
    ensures lines == Blocks(startTag, texts, endTag)
  {
    lines := [];
    var j := 0;
    while j < |texts|
      invariant 0 <= j <= |texts|
      invariant lines == Blocks(startTag, texts[..j], endTag)
    {
      GroupLast(lines, [startTag], SplitLines(texts[j]), [endTag]);
      lines := lines + [startTag] + SplitLines(texts[j]) + [endTag];
      BlocksSnoc(startTag, texts[..j], texts[j], endTag);
      TakeOneMore(texts, j);
      j := j + 1;
    }
    assert texts[..j] == texts;
  }

  /** The loop of `saveGenres`: one write per genre, in list order. */
  method GenreRecordLines(genres: seq<Genre>) returns (written: seq<string>)
    ensures written == EncodeGenres(Records(genres))
  {
    written := [];
    var i := 0;
    while i < |genres|
      invariant 0 <= i <= |genres|
      invariant written == EncodeGenres(Records(genres[..i]))
    {
      var g := genres[i];
      written := written + SplitLines(GenreTag + g.id + Separator + JavaStr(g.name));
      EncodeGenresSnoc(Records(genres[..i]), g.Value());
      TakeOneMore(genres, i);
      RecordsSnoc(genres[..i], g);
      i := i + 1;
    }
    assert genres[..i] == genres;
  }

  /** The loop of `saveBooks`: each book's record in list order, up to
      and including the part of the first book that fails. */
  method BookRecords(books: seq<Book>) returns (written: seq<string>, thrown: Option<JavaException>)
    ensures Emitted(written, thrown) == EncodeBooks(Snapshots(books))
  {
    ghost var values := Snapshots(books);
    written := [];
    thrown := None;
    var i := 0;
    while i < |books|
      invariant 0 <= i <= |books|
      invariant EncodeBooks(values[..i]) == Emitted(written, None)
      invariant thrown.None?
    {
      var lines, failure := BookLines(books[i]);
      SnapshotAt(books, i);
      SaveStep(values, i, written, lines, failure);
      written := written + lines;
      if failure.Some? {
        thrown := failure;
        FailedPrefixIsAll(values, i + 1);
        return;
      }
      i := i + 1;
    }
    assert values[..i] == values;
  }

  class DataManager {
    /** The lines of the genre file, `None` when it does not exist. */
    var genresFile: Option<seq<string>>
    /** The lines of the book file, `None` when it does not exist. */
    var booksFile: Option<seq<string>>

    constructor(booksFile: Option<seq<string>>, genresFile: Option<seq<string>>)
      ensures this.booksFile == booksFile && this.genresFile == genresFile
    {
      this.booksFile := booksFile;
      this.genresFile := genresFile;
    }

    /** `loadGenres`: a new genre, in file order, for every line that
        starts with `GENRE: ` and splits in exactly two; none for a missing
        file. */
    method LoadGenres() returns (genres: seq<Genre>)
      ensures Records(genres) == DecodeGenres(genresFile)
      ensures forall g :: g in genres ==> fresh(g)
      ensures Distinct(genres)
    {
      genres := [];
      if genresFile.None? {
        return;
      }
      var lines := genresFile.value;
      var i := 0;
      while i < |lines|
        invariant 0 <= i <= |lines|
        invariant Records(genres) == DecodeGenreLines(lines[..i])
        invariant forall g :: g in genres ==> fresh(g)
        invariant Distinct(genres)
      {
        DecodeGenreLinesSnoc(lines, i);
        genres := GenreLine(lines[i], genres);
        i := i + 1;
      }
      assert lines[..i] == lines;
    }

    /** One line of the genre file: a `GENRE: ` line that splits in exactly
        two adds a new genre at the end of the list; any other line adds
        nothing. */
    static method GenreLine(line: string, genres0: seq<Genre>) returns (genres: seq<Genre>)
      ensures Records(genres) == Records(genres0) + Accepted(line)
      ensures forall g :: g in genres ==> g in genres0 || fresh(g)
      ensures Distinct(genres0) ==> Distinct(genres)
    {
      genres := genres0;
      if StartsWith(line, GenreTag) {
        var data := line[|GenreTag|..];
        var parts := SplitOn(data, Separator);
        if |parts| == 2 {
          var g := new Genre.Restore(parts[0], Some(parts[1]));
          RecordsSnoc(genres, g);
          genres := genres + [g];
        }
      }
    }

    /** `saveGenres`: the file is replaced by one `GENRE: id ; name` write
        per genre, in list order. The book file is not touched. */
    method SaveGenres(genres: seq<Genre>)
      modifies this
      ensures genresFile == Some(EncodeGenres(Records(genres)))
      ensures booksFile == old(booksFile)
    {
      var written := GenreRecordLines(genres);
      genresFile := Some(written);
    }

    /** `loadBooks`: the state machine over the lines of the book file.
        The books read are the ones `DecodeBooks` gives, and an exception
        it throws is returned in `thrown`. */
    method LoadBooks(genres: seq<Genre>) returns (books: seq<Book>, thrown: Option<JavaException>)
      ensures match DecodeBooks(booksFile, genres)
              case Loaded(vs) => thrown.None? && Snapshots(books) == vs
              case Threw(e) => thrown == Some(e)
      ensures forall b :: b in books ==> fresh(b)
      ensures Distinct(books)
    {
      books := [];
      thrown := None;
      if booksFile.None? {
        return;
      }
      var lines := booksFile.value;
      var builder: Option<Builder> := None;
      var readingMode: Option<string> := None;
      var textBlock := "";
      var i := 0;
      while i < |lines|
        invariant 0 <= i <= |lines|
        invariant thrown.None?
        invariant Run(Start, lines, genres)
                  == Run(Machine(Snapshots(books), builder, BlockOf(readingMode, textBlock)), lines[i..], genres)
        invariant forall b :: b in books ==> fresh(b)
        invariant Distinct(books)
      {
        var line := lines[i];
        ghost var m := Machine(Snapshots(books), builder, BlockOf(readingMode, textBlock));
        RunFrom(m, lines, i, genres);
        var stop;
        if readingMode.Some? {
          builder, readingMode, textBlock, stop, thrown := BlockLine(line, builder, readingMode.value, textBlock, Snapshots(books), genres);
        } else {
          builder, readingMode, textBlock, books, stop, thrown := TagLine(line, genres, builder, books);
        }
        if stop {
          return;
        }
        i := i + 1;
      }
      assert lines[i..] == [];
    }

    /** One line inside a text block: an end tag closes the block (a null
        builder throws), any other line is added to the text. */
    static method BlockLine(line: string, builder0: Option<Builder>, readingMode0: string, textBlock0: string,
                            ghost done: seq<BookValue>, ghost genres: seq<Genre>)
      returns (builder: Option<Builder>, readingMode: Option<string>, textBlock: string,
               stop: bool, thrown: Option<JavaException>)
      ensures var p := Step(Machine(done, builder0, Some(textBlock0)), line, genres);
              p.Continue? ==> !stop && thrown.None? && p.next == Machine(done, builder, BlockOf(readingMode, textBlock))
      ensures var p := Step(Machine(done, builder0, Some(textBlock0)), line, genres);
              p.Crashed? ==> stop && thrown == Some(p.error)
      ensures !Step(Machine(done, builder0, Some(textBlock0)), line, genres).Stopped?
    {
      builder, readingMode, textBlock, stop, thrown := builder0, Some(readingMode0), textBlock0, false, None;
      if line == DescriptionEnd {
        if builder.None? {
          return builder, readingMode, textBlock, true, Some(NullPointer);
        }
        builder := Some(builder.value.(description := textBlock));
        readingMode := None;
      } else if line == QuoteEnd {
        if builder.None? {
          return builder, readingMode, textBlock, true, Some(NullPointer);
        }
        assert line[0] != DescriptionEnd[0];
        builder := Some(builder.value.(quotes := builder.value.quotes + [textBlock]));
        readingMode := None;
      } else if line == NoteEnd {
        if builder.None? {
          return builder, readingMode, textBlock, true, Some(NullPointer);
        }
        assert line[0] != DescriptionEnd[0] && line[0] != QuoteEnd[0];
        builder := Some(builder.value.(notes := builder.value.notes + [textBlock]));
        readingMode := None;
      } else {
        if |textBlock| > 0 {
          textBlock := textBlock + "\n";
        }
        textBlock := textBlock + line;
        assert |textBlock0| == 0 ==> textBlock == line;
      }
    }

    /** One line outside a text block: the chain of tag tests of
        `loadBooks` (`Classify`) and what each tag does. `stop` is a caught
        `NumberFormatException` or a thrown exception; both end the loop. */
    static method TagLine(line: string, genres: seq<Genre>, builder0: Option<Builder>, books0: seq<Book>)
      returns (builder: Option<Builder>, readingMode: Option<string>, textBlock: string,
               books: seq<Book>, stop: bool, thrown: Option<JavaException>)
      ensures match Step(Machine(Snapshots(books0), builder0, None), line, genres)
              case Continue(next) =>
                !stop && thrown.None? && next == Machine(Snapshots(books), builder, BlockOf(readingMode, textBlock))
              case Stopped(kept) => stop && thrown.None? && kept == Snapshots(books)
              case Crashed(e) => stop && thrown == Some(e)
      ensures forall b :: b in books ==> b in books0 || fresh(b)
      ensures Distinct(books0) ==> Distinct(books)
    {
      builder, readingMode, textBlock, books, stop, thrown := builder0, None, "", books0, false, None;
      match Classify(line)
      case StartRecord(ebook) =>
        builder := Some(NewBuilder(ebook));
      case TextLine(f, v) =>
        if builder.Some? {
          builder := Some(SetText(builder.value, f, v));
        }
      case NumberLine(f, digits) =>
        if builder.Some? {
          var n := ParseInt(digits);
          if n.None? {
            stop := true;
            return;
          }
          builder := Some(SetNumber(builder.value, f, n.value));
        }
      case StatusLine(name) =>
        if builder.Some? {
          var s := ValueOf(name);
          if s.None? {
            stop, thrown := true, Some(IllegalArgument);
            return;
          }
          builder := Some(builder.value.(status := s));
        }
      case GenreRef(genreId) =>
        if builder.Some? {
          builder := Some(builder.value.(genre := FindGenre(genres, genreId)));
        }
      case OpenBlock =>
        readingMode := Some(if line == DescriptionStart then "DESCRIPTION"
                            else if line == QuoteStart then "QUOTE" else "NOTE");
      case EndRecord =>
        if builder.Some? {
          var book := BuildBook(builder.value);
          SnapshotsSnoc(books, book);
          books := books + [book];
          builder := None;
        }
      case Ignored =>
    }

    /** `saveBooks`: the file is replaced by the records of the books in
        list order. A null status or description throws after the lines
        already written, which stay in the file. The genre file is not
        touched. */
    method SaveBooks(books: seq<Book>) returns (thrown: Option<JavaException>)
      modifies this
      ensures booksFile == Some(EncodeBooks(Snapshots(books)).lines)
      ensures thrown == EncodeBooks(Snapshots(books)).failure
      ensures genresFile == old(genresFile)
    {
      var written;
      written, thrown := BookRecords(books);
      booksFile := Some(written);
    }
  }
}
