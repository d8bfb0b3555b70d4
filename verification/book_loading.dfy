/** Properties of the book-file reader: how lines are recognised, how a
    run over lines composes, and what text blocks, field lines, record
    boundaries and errors do. */
module BookLoading {
  import opened JavaLang
  import opened JavaInt
  import opened JavaText
  import opened Status
  import opened Genres
  import opened Books
  import opened BookCodec
  import opened Sequences

  /** A text that starts with `tag` does not start with a tag that
      differs from it at some position of both. */
  lemma TagMiss(tag: string, v: string, other: string, i: nat)
    requires i < |tag| && i < |other| && tag[i] != other[i]
    ensures !StartsWith(tag + v, other)
  {
    LineMiss(tag + v, other, i);
  }

  /** A text that starts with `tag` starts with it. */
  lemma TagHit(tag: string, v: string)
    ensures StartsWith(tag + v, tag) && (tag + v)[|tag|..] == v
  {
    assert (tag + v)[..|tag|] == tag;
  }

  /** A tag followed by anything is recognised as that tag's line: no tag
      tested earlier is a prefix of it. */
  lemma ClassifyText(f: TextField, v: string)
    ensures Classify(TextTag(f) + v) == TextLine(f, v)
  {
    var tag := TextTag(f);
    TagHit(tag, v);
    TagMiss(tag, v, BookStartTag, 0);
    if f != IdField {
      TagMiss(tag, v, IdTag, 0);
      if f != TitleField {
        TagMiss(tag, v, TitleTag, 0);
        if f != AuthorField {
          TagMiss(tag, v, AuthorTag, 0);
          if f != PublisherField {
            TagMiss(tag, v, PublisherTag, 0);
            TagMiss(tag, v, TotalPagesTag, 0);
            TagMiss(tag, v, CurrentPageTag, 0);
            TagMiss(tag, v, RatingTag, 0);
            TagMiss(tag, v, StatusTag, 0);
            TagMiss(tag, v, GenreIdTag, 0);
          }
        }
      }
    }
  }

  lemma ClassifyNumber(f: NumberField, v: string)
    ensures Classify(NumberTag(f) + v) == NumberLine(f, v)
  {
    var tag := NumberTag(f);
    TagHit(tag, v);
    TagMiss(tag, v, BookStartTag, 0);
    TagMiss(tag, v, IdTag, 0);
    TagMiss(tag, v, AuthorTag, 0);
    TagMiss(tag, v, PublisherTag, 0);
    if f == TotalPagesField {
      TagMiss(tag, v, TitleTag, 1);
    } else {
      TagMiss(tag, v, TitleTag, 0);
      TagMiss(tag, v, TotalPagesTag, 0);
      if f == RatingField {
        TagMiss(tag, v, CurrentPageTag, 0);
      }
    }
  }

  lemma ClassifyStatus(v: string)
    ensures Classify(StatusTag + v) == StatusLine(v)
  {
    TagHit(StatusTag, v);
    TagMiss(StatusTag, v, BookStartTag, 0);
    TagMiss(StatusTag, v, IdTag, 0);
    TagMiss(StatusTag, v, TitleTag, 0);
    TagMiss(StatusTag, v, AuthorTag, 0);
    TagMiss(StatusTag, v, PublisherTag, 0);
    TagMiss(StatusTag, v, TotalPagesTag, 0);
    TagMiss(StatusTag, v, CurrentPageTag, 0);
    TagMiss(StatusTag, v, RatingTag, 0);
  }

  lemma ClassifyGenreRef(v: string)
    ensures Classify(GenreIdTag + v) == GenreRef(v)
  {
    TagHit(GenreIdTag, v);
    TagMiss(GenreIdTag, v, BookStartTag, 0);
    TagMiss(GenreIdTag, v, IdTag, 0);
    TagMiss(GenreIdTag, v, TitleTag, 0);
    TagMiss(GenreIdTag, v, AuthorTag, 0);
    TagMiss(GenreIdTag, v, PublisherTag, 0);
    TagMiss(GenreIdTag, v, TotalPagesTag, 0);
    TagMiss(GenreIdTag, v, CurrentPageTag, 0);
    TagMiss(GenreIdTag, v, RatingTag, 0);
    TagMiss(GenreIdTag, v, StatusTag, 0);
  }

  /** A record is an e-book exactly when the text after `BOOK_START: ` is
      `EBOOK`; anything else starts a physical book. */
  lemma ClassifyStart(kind: string)
    ensures Classify(BookStartTag + kind) == StartRecord(kind == "EBOOK")
  {
    TagHit(BookStartTag, kind);
  }

  /** A line that differs from a tag at some position of both does not
      start with it. */
  lemma LineMiss(line: string, other: string, i: nat)
    requires i < |line| && i < |other| && line[i] != other[i]
    ensures !StartsWith(line, other)
  {
    if |other| <= |line| {
      assert line[..|other|][i] == line[i];
    }
  }

  /** A line starting with `D`, `Q` or `N` matches no prefix tag. */
  lemma NoPrefixTag(line: string)
    requires |line| > 0 && line[0] in "DQN"
    ensures Classify(line) == (if line == DescriptionStart || line == QuoteStart || line == NoteStart
                               then OpenBlock else if line == BookEndTag then EndRecord else Ignored)
  {
    LineMiss(line, BookStartTag, 0);
    LineMiss(line, IdTag, 0);
    LineMiss(line, TitleTag, 0);
    LineMiss(line, AuthorTag, 0);
    LineMiss(line, PublisherTag, 0);
    LineMiss(line, TotalPagesTag, 0);
    LineMiss(line, CurrentPageTag, 0);
    LineMiss(line, RatingTag, 0);
    LineMiss(line, StatusTag, 0);
    LineMiss(line, GenreIdTag, 0);
    LineMiss(line, LocalTag, 0);
  }

  /** The block start tags open a block. */
  lemma ClassifyBlockStarts()
    ensures Classify(DescriptionStart) == OpenBlock
    ensures Classify(QuoteStart) == OpenBlock
    ensures Classify(NoteStart) == OpenBlock
  {
    NoPrefixTag(DescriptionStart);
    NoPrefixTag(QuoteStart);
    NoPrefixTag(NoteStart);
  }

  /** `BOOK_END` ends a record, and the empty line after it means nothing. */
  lemma ClassifyRecordEnd()
    ensures Classify(BookEndTag) == EndRecord
    ensures Classify("") == Ignored
  {
    var line := BookEndTag;
    LineMiss(line, BookStartTag, 5);
    LineMiss(line, IdTag, 0);
    LineMiss(line, TitleTag, 0);
    LineMiss(line, AuthorTag, 0);
    LineMiss(line, PublisherTag, 0);
    LineMiss(line, TotalPagesTag, 0);
    LineMiss(line, CurrentPageTag, 0);
    LineMiss(line, RatingTag, 0);
    LineMiss(line, StatusTag, 0);
    LineMiss(line, GenreIdTag, 0);
    LineMiss(line, LocalTag, 0);
  }

  // ---------------------------------------------------------------------
  // Runs
  // ---------------------------------------------------------------------

  /** A run over one line is that line's step. */
  lemma RunSingle(m: Machine, line: string, genres: seq<Genre>)
    ensures Run(m, [line], genres) == Step(m, line, genres)
  {
    assert [line][1..] == [];
  }

  /** A run over two lines is the first line's step, then the second. */
  lemma RunTwo(m: Machine, first: string, second: string, genres: seq<Genre>)
    ensures Run(m, [first, second], genres) == Then(Step(m, first, genres), [second], genres)
  {
    assert [first, second][1..] == [second];
  }

  /** Reading `xs + ys` is reading `xs`, then going on with `ys` from where
      it left off; a stop or a throw inside `xs` ends the run. */
  lemma {:induction false} RunAppend(m: Machine, xs: seq<string>, ys: seq<string>, genres: seq<Genre>)
    ensures Run(m, xs + ys, genres) == Then(Run(m, xs, genres), ys, genres)
    decreases |xs|
  {
    if xs == [] {
      assert xs + ys == ys;
    } else {
      assert (xs + ys)[0] == xs[0];
      assert (xs + ys)[1..] == xs[1..] + ys;
      match Step(m, xs[0], genres)
      case Continue(next) => RunAppend(next, xs[1..], ys, genres);
      case _ =>
    }
  }

  // ---------------------------------------------------------------------
  // Text blocks
  // ---------------------------------------------------------------------

  /** The block buffer after the given lines. */
  function Accumulate(text: string, lines: seq<string>): string
    decreases |lines|
  {
    if lines == [] then text else Accumulate(AppendLine(text, lines[0]), lines[1..])
  }

  /** Inside a block every line that is not an end tag is text. */
  lemma {:induction false} RunInsideBlock(m: Machine, text: string, lines: seq<string>, genres: seq<Genre>)
    requires m.block == Some(text)
    requires forall l :: l in lines ==> !IsEndTag(l)
    ensures Run(m, lines, genres) == Continue(m.(block := Some(Accumulate(text, lines))))
    decreases |lines|
  {
    if lines != [] {
      assert lines[0] in lines;
      assert forall l :: l in lines[1..] ==> l in lines;
      RunInsideBlock(m.(block := Some(AppendLine(text, lines[0]))), AppendLine(text, lines[0]),
                     lines[1..], genres);
    }
  }

  /** Once the buffer holds something, the lines are joined with `"\n"`. */
  lemma {:induction false} AccumulateJoins(text: string, lines: seq<string>)
    requires |text| > 0
    ensures Accumulate(text, lines) == Join([text] + lines, "\n")
    decreases |lines|
  {
    if lines != [] {
      var next := text + "\n" + lines[0];
      AccumulateJoins(next, lines[1..]);
      if |lines| == 1 {
        assert Join([next], "\n") == next;
        assert Join([lines[0]], "\n") == lines[0];
      } else {
        JoinMerge(text, lines[0], lines[1..], "\n");
      }
    }
  }


  /** The leading empty lines of a block are lost: nothing is added to an
      empty buffer for them. */
  lemma LeadingEmptyLineLost(lines: seq<string>)
    ensures Accumulate("", [""] + lines) == Accumulate("", lines)
  {
    assert ([""] + lines)[1..] == lines;
  }

  /** So a text that starts with a line break is read back without it. */
  lemma LeadingLineBreakLost()
    ensures Accumulate("", SplitLines("\nx")) == "x"
  {
    var s := "\nx";
    LineBreakAt(s, 0);
    IndexOfIs(s, "\n", 0);
    SplitAt(s, "\n", 0);
    assert s[1..] == "x";
    SingleLine("x");
    assert SplitLines(s) == ["", "x"];
    LeadingEmptyLineLost(["x"]);
  }

  /** A text that does not start with a line break is read back as written. */
  lemma BlockTextReadsBack(t: string)
    requires t == "" || t[0] != '\n'
    ensures Accumulate("", SplitLines(t)) == t
  {
    var lines := SplitLines(t);
    FirstLineEmpty(t);
    JoinSplit(t, "\n");
    if lines[0] == "" {
      assert t == "";
      assert lines == [""] by {
        assert IndexOf(t, "\n").None?;
      }
    } else {
      assert lines == [lines[0]] + lines[1..];
      AccumulateJoins(lines[0], lines[1..]);
    }
  }

  /** The texts that a block carries through unchanged: no line of them is
      an end tag, and they do not start with a line break. */
  predicate BlockText(t: string)
  {
    (t == "" || t[0] != '\n') && forall l :: l in SplitLines(t) ==> !IsEndTag(l)
  }

  /** A block of an open record: the start tag opens it, the text lines fill
      the buffer, and the end tag puts the text where the end tag says. */
  lemma RunTextBlock(m: Machine, b: Builder, startTag: string, t: string, endTag: string,
                     genres: seq<Genre>)
    requires m.block.None? && m.builder == Some(b)
    requires startTag == DescriptionStart || startTag == QuoteStart || startTag == NoteStart
    requires IsEndTag(endTag) && BlockText(t)
    ensures Run(m, TextBlock(startTag, t, endTag), genres)
            == Continue(Machine(m.books, Some(CloseBlock(b, endTag, t)), None))
  {
    ClassifyBlockStarts();
    var lines := SplitLines(t);
    var inBlock := m.(block := Some(""));
    RunAppend(m, [startTag], lines, genres);
    RunSingle(m, startTag, genres);
    RunInsideBlock(inBlock, "", lines, genres);
    BlockTextReadsBack(t);
    RunAppend(m, [startTag] + lines, [endTag], genres);
    RunSingle(inBlock.(block := Some(t)), endTag, genres);
  }

  /** Builders after a run of blocks with the same end tag. */
  function CloseAll(b: Builder, endTag: string, texts: seq<string>): Builder
    decreases |texts|
  {
    if texts == [] then b else CloseAll(CloseBlock(b, endTag, texts[0]), endTag, texts[1..])
  }

  /** One block per text, each closed by the same end tag. */
  lemma {:induction false} RunBlocks(m: Machine, b: Builder, startTag: string, texts: seq<string>,
                                     endTag: string, genres: seq<Genre>)
    requires m.block.None? && m.builder == Some(b)
    requires startTag == DescriptionStart || startTag == QuoteStart || startTag == NoteStart
    requires IsEndTag(endTag) && forall t :: t in texts ==> BlockText(t)
    ensures Run(m, Blocks(startTag, texts, endTag), genres)
            == Continue(Machine(m.books, Some(CloseAll(b, endTag, texts)), None))
    decreases |texts|
  {
    if texts != [] {
      var next := Machine(m.books, Some(CloseBlock(b, endTag, texts[0])), None);
      assert texts[0] in texts;
      assert forall t :: t in texts[1..] ==> t in texts;
      RunAppend(m, TextBlock(startTag, texts[0], endTag), Blocks(startTag, texts[1..], endTag), genres);
      RunTextBlock(m, b, startTag, texts[0], endTag, genres);
      RunBlocks(next, CloseBlock(b, endTag, texts[0]), startTag, texts[1..], endTag, genres);
    }
  }

  /** Quote blocks append their texts to the quotes, in order. */
  lemma {:induction false} CloseAllQuotes(b: Builder, texts: seq<string>)
    ensures CloseAll(b, QuoteEnd, texts) == b.(quotes := b.quotes + texts)
    decreases |texts|
  {
    if texts != [] {
      CloseAllQuotes(b.(quotes := b.quotes + [texts[0]]), texts[1..]);
      assert b.quotes + [texts[0]] + texts[1..] == b.quotes + texts;
    } else {
      assert b.quotes + texts == b.quotes;
    }
  }

  /** Note blocks append their texts to the notes, in order. */
  lemma {:induction false} CloseAllNotes(b: Builder, texts: seq<string>)
    ensures CloseAll(b, NoteEnd, texts) == b.(notes := b.notes + texts)
    decreases |texts|
  {
    if texts != [] {
      CloseAllNotes(b.(notes := b.notes + [texts[0]]), texts[1..]);
      assert b.notes + [texts[0]] + texts[1..] == b.notes + texts;
    } else {
      assert b.notes + texts == b.notes;
    }
  }

  // ---------------------------------------------------------------------
  // What single lines do
  // ---------------------------------------------------------------------

  /** Any of the three end tags closes the open block, whichever tag opened
      it: `DESCRIPTION_END` replaces the description, `QUOTE_END` appends a
      quote, `NOTE_END` appends a note. */
  lemma AnyEndTagClosesBlock(books: seq<BookValue>, b: Builder, text: string, genres: seq<Genre>)
    ensures Step(Machine(books, Some(b), Some(text)), DescriptionEnd, genres)
            == Continue(Machine(books, Some(b.(description := text)), None))
    ensures Step(Machine(books, Some(b), Some(text)), QuoteEnd, genres)
            == Continue(Machine(books, Some(b.(quotes := b.quotes + [text])), None))
    ensures Step(Machine(books, Some(b), Some(text)), NoteEnd, genres)
            == Continue(Machine(books, Some(b.(notes := b.notes + [text])), None))
  {
  }

  /** An end tag inside a block outside any record dereferences the null
      builder. */
  lemma EndTagWithoutRecordThrows(books: seq<BookValue>, text: string, line: string, genres: seq<Genre>)
    requires IsEndTag(line)
    ensures Step(Machine(books, None, Some(text)), line, genres) == Crashed(NullPointer)
  {
  }

  /** Field lines outside a record are ignored; even a number that does not
      parse is not looked at. */
  lemma FieldWithoutRecordIgnored(m: Machine, line: string, genres: seq<Genre>)
    requires m.block.None? && m.builder.None?
    requires !Classify(line).StartRecord? && !Classify(line).OpenBlock?
    ensures Step(m, line, genres) == Continue(m)
  {
  }

  /** `BOOK_START` opens a fresh record and drops the unfinished one. */
  lemma StartDropsOpenRecord(books: seq<BookValue>, b: Builder, kind: string, genres: seq<Genre>)
    ensures Step(Machine(books, Some(b), None), BookStartTag + kind, genres)
            == Continue(Machine(books, Some(NewBuilder(kind == "EBOOK")), None))
  {
    ClassifyStart(kind);
  }

  /** `BOOK_END` appends the built book and clears the builder; with no
      record open it does nothing. */
  lemma EndRecordAppends(books: seq<BookValue>, builder: Option<Builder>, genres: seq<Genre>)
    ensures Step(Machine(books, builder, None), BookEndTag, genres)
            == Continue(Machine(books + (if builder.Some? then [Build(builder.value)] else []), None, None))
  {
    ClassifyRecordEnd();
    if builder.None? {
      assert books + [] == books;
    }
  }

  /** Of two lines for the same text field, the later one wins. */
  lemma LaterFieldLineWins(m: Machine, b: Builder, f: TextField, first: string, second: string,
                           genres: seq<Genre>)
    requires m.block.None? && m.builder == Some(b)
    ensures Run(m, [TextTag(f) + first, TextTag(f) + second], genres)
            == Run(m, [TextTag(f) + second], genres)
  {
    ClassifyText(f, first);
    ClassifyText(f, second);
    var after := m.(builder := Some(SetText(b, f, first)));
    RunAppend(m, [TextTag(f) + first], [TextTag(f) + second], genres);
    assert [TextTag(f) + first] + [TextTag(f) + second] == [TextTag(f) + first, TextTag(f) + second];
    RunSingle(m, TextTag(f) + first, genres);
    RunSingle(after, TextTag(f) + second, genres);
    RunSingle(m, TextTag(f) + second, genres);
  }

  /** Lines for different text fields may come in either order. */
  lemma FieldLinesCommute(m: Machine, b: Builder, f: TextField, g: TextField, x: string, y: string,
                          genres: seq<Genre>)
    requires m.block.None? && m.builder == Some(b) && f != g
    ensures Run(m, [TextTag(f) + x, TextTag(g) + y], genres)
            == Run(m, [TextTag(g) + y, TextTag(f) + x], genres)
  {
    var lf := TextTag(f) + x;
    var lg := TextTag(g) + y;
    var bf := SetText(b, f, x);
    var bg := SetText(b, g, y);
    StepText(m, b, f, x, genres);
    StepText(m, b, g, y, genres);
    StepText(m.(builder := Some(bf)), bf, g, y, genres);
    StepText(m.(builder := Some(bg)), bg, f, x, genres);
    RunTwo(m, lf, lg, genres);
    RunTwo(m, lg, lf, genres);
    RunSingle(m.(builder := Some(bf)), lg, genres);
    RunSingle(m.(builder := Some(bg)), lf, genres);
    assert SetText(bf, g, y) == SetText(bg, f, x);
  }

  /** A number that does not parse inside a record stops reading: the books
      finished before are the result, whatever follows. */
  lemma BadNumberStops(m: Machine, b: Builder, f: NumberField, digits: string, rest: seq<string>,
                       genres: seq<Genre>)
    requires m.block.None? && m.builder == Some(b) && ParseInt(digits).None?
    ensures Run(m, [NumberTag(f) + digits] + rest, genres) == Stopped(m.books)
  {
    ClassifyNumber(f, digits);
    RunAppend(m, [NumberTag(f) + digits], rest, genres);
    RunSingle(m, NumberTag(f) + digits, genres);
  }

  /** A status that is not a constant's name inside a record throws, whatever
      follows. */
  lemma BadStatusThrows(m: Machine, b: Builder, name: string, rest: seq<string>, genres: seq<Genre>)
    requires m.block.None? && m.builder == Some(b) && ValueOf(name).None?
    ensures Run(m, [StatusTag + name] + rest, genres) == Crashed(IllegalArgument)
  {
    ClassifyStatus(name);
    RunAppend(m, [StatusTag + name], rest, genres);
    RunSingle(m, StatusTag + name, genres);
  }

  /** A `GENRE_ID` line links the first loaded genre with that id, or none;
      `NULL_GENRE_ID` links none unless a genre has that very id. */
  lemma GenreLineLinks(m: Machine, b: Builder, id: string, genres: seq<Genre>)
    requires m.block.None? && m.builder == Some(b)
    ensures Step(m, GenreIdTag + id, genres)
            == Continue(m.(builder := Some(b.(genre := FindGenre(genres, id)))))
    ensures FindGenre(genres, id) == null <==> forall g :: g in genres ==> g.id != id
  {
    ClassifyGenreRef(id);
  }

  /** A physical record ignores its `LOCAL:` line. */
  lemma PhysicalIgnoresLocal(b: Builder, local: string)
    requires !b.isEbook
    ensures Build(SetText(b, LocalField, local)) == Build(b)
  {
  }

  /** An e-book record without a `LOCAL:` line has a null location. */
  lemma EbookWithoutLocal(books: seq<BookValue>, genres: seq<Genre>)
    ensures Run(Machine(books, None, None), [BookStartTag + "EBOOK", BookEndTag], genres)
            == Continue(Machine(books + [Build(NewBuilder(true))], None, None))
    ensures Build(NewBuilder(true)).kind == Ebook(None)
  {
    var m := Machine(books, None, None);
    var started := Machine(books, Some(NewBuilder(true)), None);
    ClassifyStart("EBOOK");
    RunAppend(m, [BookStartTag + "EBOOK"], [BookEndTag], genres);
    assert [BookStartTag + "EBOOK"] + [BookEndTag] == [BookStartTag + "EBOOK", BookEndTag];
    RunSingle(m, BookStartTag + "EBOOK", genres);
    RunSingle(started, BookEndTag, genres);
    EndRecordAppends(books, Some(NewBuilder(true)), genres);
  }

  /** Without a `BOOK_END` line no book is added: a run keeps the books it
      started with, or stops with them, or throws. */
  lemma {:induction false} BooksOnlyAtRecordEnd(m: Machine, lines: seq<string>, genres: seq<Genre>)
    requires forall l :: l in lines ==> l != BookEndTag
    ensures match Run(m, lines, genres)
            case Continue(next) => next.books == m.books
            case Stopped(kept) => kept == m.books
            case Crashed(_) => true
    decreases |lines|
  {
    if lines != [] {
      assert lines[0] in lines;
      assert forall l :: l in lines[1..] ==> l in lines;
      if m.block.None? {
        assert !Classify(lines[0]).EndRecord?;
      }
      match Step(m, lines[0], genres)
      case Continue(next) =>
        assert next.books == m.books;
        BooksOnlyAtRecordEnd(next, lines[1..], genres);
      case _ =>
    }
  }

  // ---------------------------------------------------------------------
  // The lines a record is written with, one at a time
  // ---------------------------------------------------------------------

  lemma StepStart(m: Machine, kind: string, genres: seq<Genre>)
    requires m.block.None?
    ensures Step(m, BookStartTag + kind, genres)
            == Continue(m.(builder := Some(NewBuilder(kind == "EBOOK"))))
  {
    ClassifyStart(kind);
  }

  lemma StepText(m: Machine, b: Builder, f: TextField, v: string, genres: seq<Genre>)
    requires m.block.None? && m.builder == Some(b)
    ensures Step(m, TextTag(f) + v, genres) == Continue(m.(builder := Some(SetText(b, f, v))))
  {
    ClassifyText(f, v);
  }

  /** A number written with `Integer.toString` is read back. */
  lemma StepNumber(m: Machine, b: Builder, f: NumberField, n: Int32, genres: seq<Genre>)
    requires m.block.None? && m.builder == Some(b)
    ensures Step(m, NumberTag(f) + IntToString(n), genres)
            == Continue(m.(builder := Some(SetNumber(b, f, n))))
  {
    ClassifyNumber(f, IntToString(n));
    ParseIntToString(n);
  }

  /** A status written by its constant name is read back. */
  lemma StepStatus(m: Machine, b: Builder, s: BookStatus, genres: seq<Genre>)
    requires m.block.None? && m.builder == Some(b)
    ensures Step(m, StatusTag + Name(s), genres) == Continue(m.(builder := Some(b.(status := Some(s)))))
  {
    ClassifyStatus(Name(s));
    ValueOfName(s);
  }

  lemma StepGenreRef(m: Machine, b: Builder, id: string, genres: seq<Genre>)
    requires m.block.None? && m.builder == Some(b)
    ensures Step(m, GenreIdTag + id, genres)
            == Continue(m.(builder := Some(b.(genre := FindGenre(genres, id)))))
  {
    ClassifyGenreRef(id);
  }
}
