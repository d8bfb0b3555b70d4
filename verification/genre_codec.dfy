/** The genre file: one line `GENRE: <id> ; <name>` per genre, in list
    order. Loading keeps, in order, the lines that start with `GENRE: ` and
    whose rest splits on ` ; ` into exactly two pieces; every other line is
    skipped. A missing file loads as no genres. */
module GenreCodec {
  import opened JavaLang
  import opened JavaText
  import opened Genres
  import opened Sequences

  const GenreTag: string := "GENRE: "
  const Separator: string := " ; "

  /** The text `saveGenres` writes for one genre (a null name prints as
      `null`). */
  function GenreLine(g: GenreRecord): string
  {
    GenreTag + g.id + Separator + JavaStr(g.name)
  }

  /** `saveGenres`: the physical lines of the file. */
  function EncodeGenres(gs: seq<GenreRecord>): (lines: seq<string>)
    ensures |lines| >= |gs|
  {
    if gs == [] then [] else SplitLines(GenreLine(gs[0])) + EncodeGenres(gs[1..])
  }

  /** The body of `loadGenres`' loop for one line. */
  function DecodeGenreLine(line: string): (r: Option<GenreRecord>)
  {
    if StartsWith(line, GenreTag) then
      var parts := SplitOn(line[|GenreTag|..], Separator);
      if |parts| == 2 then Some(GenreRecord(parts[0], Some(parts[1]))) else None
    else None
  }

  /** Whatever line is accepted is exactly the line that `saveGenres` writes
      for the genre it yields. */
  lemma AcceptedLineIsWritten(line: string)
    requires DecodeGenreLine(line).Some?
    ensures var g := DecodeGenreLine(line).value; g.name.Some? && GenreLine(g) == line
  {
    var data := line[|GenreTag|..];
    JoinSplit(data, Separator);
    assert line == line[..|GenreTag|] + data;
  }

  /** Saving one more genre writes its line after the others. */
  lemma {:induction false} EncodeGenresSnoc(gs: seq<GenreRecord>, g: GenreRecord)
    ensures EncodeGenres(gs + [g]) == EncodeGenres(gs) + SplitLines(GenreLine(g))
  {
    if gs == [] {
      assert [] + [g] == [g];
      assert EncodeGenres([g]) == SplitLines(GenreLine(g)) + EncodeGenres([]);
    } else {
      assert (gs + [g])[0] == gs[0];
      assert (gs + [g])[1..] == gs[1..] + [g];
      EncodeGenresSnoc(gs[1..], g);
    }
  }

  /** `loadGenres` over the lines of an existing file. */
  function DecodeGenreLines(lines: seq<string>): (gs: seq<GenreRecord>)
    ensures |gs| <= |lines|
  {
    if lines == [] then [] else Accepted(lines[0]) + DecodeGenreLines(lines[1..])
  }

  /** The genre one line contributes: none, or the one it decodes to. */
  function Accepted(line: string): (gs: seq<GenreRecord>)
    ensures |gs| <= 1
  {
    match DecodeGenreLine(line)
    case Some(g) => [g]
    case None => []
  }

  /** `loadGenres`: `None` is a missing file, which yields no genres. */
  function DecodeGenres(file: Option<seq<string>>): (gs: seq<GenreRecord>)
    ensures file.None? ==> gs == []
  {
    match file
    case None => []
    case Some(lines) => DecodeGenreLines(lines)
  }

  /** Each line is decoded on its own, and the genres keep the order of
      their lines. */
  lemma {:induction false} DecodeGenreLinesAppend(xs: seq<string>, ys: seq<string>)
    ensures DecodeGenreLines(xs + ys) == DecodeGenreLines(xs) + DecodeGenreLines(ys)
  {
    if xs != [] {
      DecodeGenreLinesAppend(xs[1..], ys);
      HeadOfAppend(xs, ys);
      AppendAssoc(Accepted(xs[0]), DecodeGenreLines(xs[1..]), DecodeGenreLines(ys));
    } else {
      assert xs + ys == ys;
    }
  }

  /** Lines that do not start with `GENRE: ` are skipped. */
  lemma {:induction false} UntaggedLinesSkipped(lines: seq<string>)
    requires forall l :: l in lines ==> !StartsWith(l, GenreTag)
    ensures DecodeGenreLines(lines) == []
  {
    if lines != [] {
      UntaggedLinesSkipped(lines[1..]);
    }
  }

  /** The genres whose line reads back as written: a non-null name, no line
      break anywhere, no separator inside the id or the name, and an id that
      does not end with ` ;` (which would make the leftmost ` ; ` start
      inside the id). */
  predicate Storable(g: GenreRecord)
  {
    && g.name.Some?
    && '\n' !in g.id && '\n' !in g.name.value
    && !Contains(g.id, Separator) && !EndsWith(g.id, " ;")
    && !Contains(g.name.value, Separator)
  }

  /** No separator starts inside the id of `id + " ; " + name`. */
  lemma NoSeparatorInsideId(id: string, name: string, j: nat)
    requires !Contains(id, Separator) && !EndsWith(id, " ;")
    requires j < |id|
    ensures !OccursAt(id + Separator + name, Separator, j)
  {
    var data := id + Separator + name;
    if j + 3 <= |id| {
      assert !OccursAt(id, Separator, j);
      assert data[j..j + 3] == id[j..j + 3];
    } else if j == |id| - 1 {
      assert data[j + 1] == ' ';
      assert data[j..j + 3][1] == data[j + 1];
    } else {
      assert data[j..j + 3][..2] == id[|id| - 2..];
      assert Separator[..2] == " ;";
    }
  }

  /** In `id + " ; " + name` the leftmost separator is the written one. */
  lemma SeparatorAfterId(id: string, name: string)
    requires !Contains(id, Separator) && !EndsWith(id, " ;")
    ensures IndexOf(id + Separator + name, Separator) == Some(|id|)
  {
    var data := id + Separator + name;
    assert data[|id|..|id| + 3] == Separator;
    forall j | 0 <= j < |id|
      ensures !OccursAt(data, Separator, j)
    {
      NoSeparatorInsideId(id, name, j);
    }
    IndexOfIs(data, Separator, |id|);
  }

  /** A storable genre's line reads back as that genre. */
  lemma GenreLineDecodes(g: GenreRecord)
    requires Storable(g)
    ensures DecodeGenreLine(GenreLine(g)) == Some(g)
  {
    var name := g.name.value;
    var line := GenreLine(g);
    var data := g.id + Separator + name;
    assert line == GenreTag + data;
    assert line[|GenreTag|..] == data;
    SeparatorAfterId(g.id, name);
    SplitAt(data, Separator, |g.id|);
    assert data[..|g.id|] == g.id;
    assert data[|g.id| + |Separator|..] == name;
    SplitWithoutSeparator(name, Separator);
  }

  /** Without line breaks, `saveGenres` writes exactly one line per genre,
      in list order, and nothing else. */
  lemma {:induction false} OneLinePerGenre(gs: seq<GenreRecord>)
    requires forall g :: g in gs ==> '\n' !in g.id && '\n' !in JavaStr(g.name)
    ensures |EncodeGenres(gs)| == |gs|
    ensures forall i :: 0 <= i < |gs| ==> EncodeGenres(gs)[i] == GenreLine(gs[i])
  {
    if gs != [] {
      var rest := EncodeGenres(gs[1..]);
      OneLinePerGenre(gs[1..]);
      SingleLine(GenreLine(gs[0]));
      assert EncodeGenres(gs) == [GenreLine(gs[0])] + rest;
      forall i | 0 < i < |gs|
        ensures EncodeGenres(gs)[i] == GenreLine(gs[i])
      {
        assert EncodeGenres(gs)[i] == rest[i - 1];
        assert gs[1..][i - 1] == gs[i];
      }
    }
  }

  /** Loading what `saveGenres` wrote gives the genres back, in order. */
  lemma {:induction false} GenresRoundTrip(gs: seq<GenreRecord>)
    requires forall g :: g in gs ==> Storable(g)
    ensures DecodeGenres(Some(EncodeGenres(gs))) == gs
  {
    if gs != [] {
      var g := gs[0];
      GenreLineDecodes(g);
      SingleLine(GenreLine(g));
      GenresRoundTrip(gs[1..]);
      DecodeGenreLinesAppend([GenreLine(g)], EncodeGenres(gs[1..]));
      assert DecodeGenreLines([GenreLine(g)]) == Accepted(GenreLine(g)) + DecodeGenreLines([]);
    }
  }

  /** Why the id must not end with ` ;`: the genre `("a ;", "x")` is written
      as `GENRE: a ; ; x` and read back as `("a", "; x")`. */
  lemma IdEndingInSemicolonSplitsEarly()
    ensures DecodeGenreLine(GenreLine(GenreRecord("a ;", Some("x"))))
            == Some(GenreRecord("a", Some("; x")))
  {
    var data := "a ; ; x";
    assert GenreLine(GenreRecord("a ;", Some("x")))[|GenreTag|..] == data;
    assert OccursAt(data, Separator, 1);
    assert !OccursAt(data, Separator, 0) by {
      assert data[0..3][0] == 'a';
    }
    assert IndexOf(data, Separator) == Some(1);
    var rest := data[4..];
    assert rest == "; x";
    assert !OccursAt(rest, Separator, 0) by {
      assert rest[0..3][0] == ';';
    }
    assert IndexOf(rest, Separator) == None;
    SplitAt(data, Separator, 1);
    SplitWithoutSeparator(rest, Separator);
    assert data[..1] == "a";
  }
}
