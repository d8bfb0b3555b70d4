/** `BookService`: the lists of books and genres the application works on,
    the checks made before they change, and the save of both files after
    every change. */
module Service {
  import opened JavaLang
  import opened JavaText
  import opened Genres
  import opened Books
  import opened GenreCodec
  import opened BookCodec
  import opened Persistence
  import opened Sequences

  /** Why a `ValidationException` is thrown. */
  datatype Validation = EmptyTitle | EmptyGenreName | DuplicateGenre

  /** How a call that may change the lists ends: both files rewritten, nothing
      changed, a `ValidationException`, or an unchecked exception. */
  datatype Outcome = Saved | Unchanged | Rejected(reason: Validation) | Raised(error: JavaException)

  /** The end of a call whose last step is `saveData`: it completes unless
      `saveBooks` throws. */
  function SaveOutcome(failure: Option<JavaException>): (r: Outcome)
    ensures r == Saved <==> failure.None?
    ensures r.Raised? ==> failure == Some(r.error)
  {
    match failure
    case None => Saved
    case Some(e) => Raised(e)
  }

  /** A title or a name that passes `s != null && !s.trim().isEmpty()`. */
  predicate Filled(s: Option<string>)
  {
    s.Some? && !Blank(s.value)
  }

  // ---------------------------------------------------------------------
  // addGenre: the duplicate check
  // ---------------------------------------------------------------------

  /** How `genreList.stream().anyMatch(g -> g.getName().equalsIgnoreCase(name))`
      ends: a match, no match, or the `NullPointerException` of a genre
      with a null name that comes before any match. */
  datatype NameScan = Duplicate | Fresh | NullName

  /** No genre before position `k` has a null name or matches `name`. */
  predicate ClearBefore(rs: seq<GenreRecord>, k: int, name: string)
  {
    forall j :: 0 <= j < k && j < |rs| ==> rs[j].name.Some? && !EqualsIgnoreCase(rs[j].name.value, name)
  }

  /** The stream, genre by genre, stopping at the first that decides. */
  function ScanNames(rs: seq<GenreRecord>, name: string): (r: NameScan)
    ensures r == Fresh <==> ClearBefore(rs, |rs|, name)
  {
    if rs == [] then Fresh
    else if rs[0].name.None? then NullName
    else if EqualsIgnoreCase(rs[0].name.value, name) then Duplicate
    else
      var r := ScanNames(rs[1..], name);
      assert ClearBefore(rs, |rs|, name) <==> ClearBefore(rs[1..], |rs| - 1, name) by {
        assert forall j :: 0 < j < |rs| ==> rs[1..][j - 1] == rs[j];
      }
      r
  }

  /** A duplicate is reported exactly when some genre matches and every
      genre before it has a name that does not; a null name throws exactly
      when it comes first. */
  lemma {:induction false} ScanNamesFirst(rs: seq<GenreRecord>, name: string)
    ensures ScanNames(rs, name) == Duplicate
            <==> exists k :: 0 <= k < |rs| && ClearBefore(rs, k, name)
                             && rs[k].name.Some? && EqualsIgnoreCase(rs[k].name.value, name)
    ensures ScanNames(rs, name) == NullName
            <==> exists k :: 0 <= k < |rs| && ClearBefore(rs, k, name) && rs[k].name.None?
  {
    if rs != [] && rs[0].name.Some? && !EqualsIgnoreCase(rs[0].name.value, name) {
      var tail := rs[1..];
      ScanNamesFirst(tail, name);
      if ScanNames(tail, name) == Duplicate {
        var k :| 0 <= k < |tail| && ClearBefore(tail, k, name)
                 && tail[k].name.Some? && EqualsIgnoreCase(tail[k].name.value, name);
        ClearShift(rs, k + 1, name);
      }
      if ScanNames(tail, name) == NullName {
        var k :| 0 <= k < |tail| && ClearBefore(tail, k, name) && tail[k].name.None?;
        ClearShift(rs, k + 1, name);
      }
      forall k | 0 < k < |rs| && ClearBefore(rs, k, name)
        ensures ClearBefore(tail, k - 1, name) && tail[k - 1] == rs[k]
      {
        ClearShift(rs, k, name);
      }
    } else if rs != [] {
      assert ClearBefore(rs, 0, name);
    }
  }

  /** Past a first genre that neither throws nor matches, the genres before
      position `k` are clear exactly when those of the rest before `k - 1`
      are. */
  lemma ClearShift(rs: seq<GenreRecord>, k: nat, name: string)
    requires 0 < k <= |rs|
    requires rs[0].name.Some? && !EqualsIgnoreCase(rs[0].name.value, name)
    ensures ClearBefore(rs, k, name) <==> ClearBefore(rs[1..], k - 1, name)
    ensures k < |rs| ==> rs[1..][k - 1] == rs[k]
  {
    assert forall j :: 0 < j < k ==> rs[1..][j - 1] == rs[j];
  }

  /** When every genre has a name, the check never throws and finds a
      duplicate exactly when some name equals the new one ignoring case. */
  lemma NamedGenresScan(rs: seq<GenreRecord>, name: string)
    requires forall i :: 0 <= i < |rs| ==> rs[i].name.Some?
    ensures ScanNames(rs, name) != NullName
    ensures ScanNames(rs, name) == Duplicate
            <==> exists i :: 0 <= i < |rs| && EqualsIgnoreCase(rs[i].name.value, name)
  {
    ScanNamesFirst(rs, name);
    if exists i :: 0 <= i < |rs| && EqualsIgnoreCase(rs[i].name.value, name) {
      assert ScanNames(rs, name) != Fresh;
    }
  }

  // ---------------------------------------------------------------------
  // updateBook: the search by id
  // ---------------------------------------------------------------------

  /** How the search loop of `updateBook` ends: at the first book with the
      id, past the end, or at a book whose null id throws. */
  datatype IdSearch = Found(index: nat) | Missing | NullId

  /** From position `i` on, a book with a null id comes before any book
      with the id: where `getId().equals(...)` throws. */
  predicate NullIdFirst(bs: seq<Book>, id: string, i: nat)
  {
    exists j :: i <= j < |bs| && bs[j].id.None?
                && forall k :: i <= k < j ==> bs[k].id.Some? && bs[k].id != Some(id)
  }

  /** Past a book with another id, a null id still comes first exactly
      when it did before. */
  lemma NullIdFirstStep(bs: seq<Book>, id: string, i: nat)
    requires i < |bs| && bs[i].id.Some? && bs[i].id != Some(id)
    ensures NullIdFirst(bs, id, i) <==> NullIdFirst(bs, id, i + 1)
  {
    if NullIdFirst(bs, id, i) {
      var j :| i <= j < |bs| && bs[j].id.None?
               && forall k :: i <= k < j ==> bs[k].id.Some? && bs[k].id != Some(id);
      assert j != i;
    }
  }

  /** The search from position `i` on. The id of a book is final, so no
      state is read. */
  function FindIdFrom(bs: seq<Book>, id: string, i: nat): (r: IdSearch)
    requires i <= |bs|
    ensures r.Found? ==> i <= r.index < |bs| && bs[r.index].id == Some(id)
    ensures r.Found? ==> forall j :: i <= j < r.index ==> bs[j].id.Some? && bs[j].id != Some(id)
    ensures r == Missing <==> forall j :: i <= j < |bs| ==> bs[j].id.Some? && bs[j].id != Some(id)
    ensures r == NullId <==> NullIdFirst(bs, id, i)
    decreases |bs| - i
  {
    if i == |bs| then Missing
    else if bs[i].id.None? then
      assert NullIdFirst(bs, id, i) by { assert bs[i].id.None?; }
      NullId
    else if bs[i].id.value == id then Found(i)
    else
      NullIdFirstStep(bs, id, i);
      FindIdFrom(bs, id, i + 1)
  }

  function FindId(bs: seq<Book>, id: string): IdSearch
  {
    FindIdFrom(bs, id, 0)
  }

  /** When every book has an id, the search never throws; it finds the
      first book with the id exactly when one exists. */
  lemma IdentifiedBooksSearch(bs: seq<Book>, id: string)
    requires forall i :: 0 <= i < |bs| ==> bs[i].id.Some?
    ensures FindId(bs, id) != NullId
    ensures FindId(bs, id).Found? <==> exists i :: 0 <= i < |bs| && bs[i].id == Some(id)
  {
  }

  /** The loop of `updateBook`: the index of the first book whose id equals
      the given one; `getId().equals(...)` on a null id throws. */
  method SearchId(bs: seq<Book>, id: string) returns (r: IdSearch)
    ensures r == FindId(bs, id)
  {
    var i := 0;
    while i < |bs|
      invariant 0 <= i <= |bs|
      invariant FindIdFrom(bs, id, i) == FindId(bs, id)
    {
      if bs[i].id.None? {
        return NullId;
      }
      if bs[i].id.value == id {
        return Found(i);
      }
      i := i + 1;
    }
    return Missing;
  }

  // ---------------------------------------------------------------------
  // deleteBook: removeIf by id
  // ---------------------------------------------------------------------

  /** Every book has an id, so `book.getId().equals(...)` cannot throw. */
  predicate IdsSet(bs: seq<Book>)
  {
    forall i :: 0 <= i < |bs| ==> bs[i].id.Some?
  }

  /** Some book has the id (`equals(null)` is false, so a null id matches
      no book that has one). */
  predicate HasId(bs: seq<Book>, id: Option<string>)
  {
    exists i :: 0 <= i < |bs| && bs[i].id == id
  }

  /** `removeIf(book -> book.getId().equals(id))`: the books without the
      id, in their order. */
  function Without(bs: seq<Book>, id: Option<string>): (r: seq<Book>)
    ensures |r| <= |bs|
    ensures forall i :: 0 <= i < |r| ==> r[i] in bs && r[i].id != id
    ensures forall i :: 0 <= i < |bs| && bs[i].id != id ==> bs[i] in r
  {
    if bs == [] then []
    else
      var rest := Without(bs[1..], id);
      assert forall i :: 0 < i < |bs| ==> bs[i] == bs[1..][i - 1];
      (if bs[0].id == id then [] else [bs[0]]) + rest
  }

  /** Removing from a concatenation removes from each part. */
  lemma {:induction false} WithoutAppend(xs: seq<Book>, ys: seq<Book>, id: Option<string>)
    ensures Without(xs + ys, id) == Without(xs, id) + Without(ys, id)
  {
    if xs == [] {
      assert xs + ys == ys;
    } else {
      HeadOfAppend(xs, ys);
      WithoutAppend(xs[1..], ys, id);
      var head := if xs[0].id == id then [] else [xs[0]];
      AppendAssoc(head, Without(xs[1..], id), Without(ys, id));
    }
  }

  /** The list shrinks exactly when some book has the id; otherwise it is
      kept as it is. */
  lemma {:induction false} WithoutShrinksIffFound(bs: seq<Book>, id: Option<string>)
    ensures |Without(bs, id)| < |bs| <==> HasId(bs, id)
    ensures !HasId(bs, id) ==> Without(bs, id) == bs
  {
    if bs != [] {
      WithoutShrinksIffFound(bs[1..], id);
      HasIdCons(bs, id);
      if !HasId(bs, id) {
        assert bs == [bs[0]] + bs[1..];
      }
    }
  }

  /** A book has the id when the first one does or a later one does. */
  lemma HasIdCons(bs: seq<Book>, id: Option<string>)
    requires bs != []
    ensures HasId(bs, id) <==> bs[0].id == id || HasId(bs[1..], id)
  {
    if HasId(bs[1..], id) {
      var i :| 0 <= i < |bs[1..]| && bs[1..][i].id == id;
      assert bs[i + 1].id == id;
    }
    if HasId(bs, id) && bs[0].id != id {
      var i :| 0 <= i < |bs| && bs[i].id == id;
      assert bs[1..][i - 1].id == id;
    }
  }

  /** Removing twice removes nothing more. */
  lemma WithoutIdempotent(bs: seq<Book>, id: Option<string>)
    ensures Without(Without(bs, id), id) == Without(bs, id)
  {
    WithoutShrinksIffFound(Without(bs, id), id);
  }

  // ---------------------------------------------------------------------
  // filterBooksByGenre
  // ---------------------------------------------------------------------

  /** `filter(book -> book.getGenre() != null && book.getGenre().equals(g))`:
      the books whose genre has the id of `g`, in their order. */
  function OfGenre(bs: seq<Book>, g: Genre): (r: seq<Book>)
    reads bs
    ensures |r| <= |bs|
    ensures forall i :: 0 <= i < |r| ==> r[i] in bs && r[i].genre != null && r[i].genre.id == g.id
    ensures forall i :: 0 <= i < |bs| && bs[i].genre != null && bs[i].genre.id == g.id ==> bs[i] in r
  {
    if bs == [] then []
    else
      var rest := OfGenre(bs[1..], g);
      assert forall i :: 0 < i < |bs| ==> bs[i] == bs[1..][i - 1];
      (if bs[0].genre != null && bs[0].genre.Equals(g) then [bs[0]] else []) + rest
  }

  /** Filtering a concatenation filters each part. */
  lemma {:induction false} OfGenreAppend(xs: seq<Book>, ys: seq<Book>, g: Genre)
    ensures OfGenre(xs + ys, g) == OfGenre(xs, g) + OfGenre(ys, g)
  {
    if xs == [] {
      assert xs + ys == ys;
    } else {
      HeadOfAppend(xs, ys);
      OfGenreAppend(xs[1..], ys, g);
      var head := if xs[0].genre != null && xs[0].genre.Equals(g) then [xs[0]] else [];
      AppendAssoc(head, OfGenre(xs[1..], g), OfGenre(ys, g));
    }
  }

  /** The filter lists no book twice when the list it filters does not. */
  lemma {:induction false} OfGenreDistinct(bs: seq<Book>, g: Genre)
    requires Distinct(bs)
    ensures Distinct(OfGenre(bs, g))
  {
    if bs != [] {
      var tail := bs[1..];
      assert Distinct(tail) by {
        forall i, j | 0 <= i < j < |tail| ensures tail[i] != tail[j] {
          assert tail[i] == bs[i + 1] && tail[j] == bs[j + 1];
        }
      }
      OfGenreDistinct(tail, g);
      var rest := OfGenre(tail, g);
      if bs[0].genre != null && bs[0].genre.Equals(g) {
        assert bs[0] !in tail by {
          forall j | 0 <= j < |tail| ensures tail[j] != bs[0] {
            assert tail[j] == bs[j + 1];
          }
        }
        var r := [bs[0]] + rest;
        forall i, j | 0 <= i < j < |r| ensures r[i] != r[j] {
          if i == 0 {
            assert r[j] == rest[j - 1] && rest[j - 1] in tail;
          } else {
            assert r[i] == rest[i - 1] && r[j] == rest[j - 1];
          }
        }
      } else {
        assert OfGenre(bs, g) == rest;
      }
    }
  }

  /** Two genres with the same id select the same books: the filter goes by
      `Genre.equals`, which compares ids only. */
  lemma {:induction false} OfEqualGenres(bs: seq<Book>, g: Genre, h: Genre)
    requires g.Equals(h)
    ensures OfGenre(bs, g) == OfGenre(bs, h)
  {
    if bs != [] {
      OfEqualGenres(bs[1..], g, h);
    }
  }

  // ---------------------------------------------------------------------
  // The service
  // ---------------------------------------------------------------------

  class BookService {
    var bookList: seq<Book>
    var genreList: seq<Genre>
    /** Reads and writes `books.txt` and `genres.txt`. */
    const dataManager: DataManager

    /** The object before `loadData` has run. */
    constructor Init(dm: DataManager)
      ensures dataManager == dm && bookList == [] && genreList == []
    {
      dataManager := dm;
      bookList := [];
      genreList := [];
    }

    /** `new BookService()`: the data manager over the two files (their
        contents are the parameters), then `loadData`. An exception from
        `loadBooks` escapes the constructor, so the service is then not
        usable. */
    static method Open(booksFile: Option<seq<string>>, genresFile: Option<seq<string>>)
      returns (service: BookService, thrown: Option<JavaException>)
      ensures fresh(service) && fresh(service.dataManager)
      ensures service.dataManager.booksFile == booksFile
      ensures service.dataManager.genresFile == genresFile
      ensures Records(service.genreList) == DecodeGenres(genresFile)
      ensures match DecodeBooks(booksFile, service.genreList)
              case Loaded(vs) => thrown.None? && Snapshots(service.bookList) == vs
              case Threw(e) => thrown == Some(e)
      ensures forall g :: g in service.genreList ==> fresh(g)
      ensures Distinct(service.genreList)
      ensures forall b :: b in service.bookList ==> fresh(b)
      ensures Distinct(service.bookList)
      ensures thrown.Some? ==> service.bookList == []
    {
      var dm := new DataManager(booksFile, genresFile);
      service := new BookService.Init(dm);
      thrown := service.LoadData();
    }

    /** `loadData`: the genres first, then the books, linked to those
        genres. (`loadGenres` and `loadBooks` never return null, so the
        null checks never fire.) */
    method LoadData() returns (thrown: Option<JavaException>)
      modifies this
      ensures unchanged(dataManager)
      ensures Records(genreList) == DecodeGenres(dataManager.genresFile)
      ensures match DecodeBooks(dataManager.booksFile, genreList)
              case Loaded(vs) => thrown.None? && Snapshots(bookList) == vs
              case Threw(e) => thrown == Some(e)
      ensures forall g :: g in genreList ==> fresh(g)
      ensures Distinct(genreList)
      ensures thrown.None? ==> (forall b :: b in bookList ==> fresh(b)) && Distinct(bookList)
      ensures thrown.Some? ==> bookList == old(bookList)
    {
      var genres, books, failure := ReadFiles(dataManager);
      genreList, thrown := genres, failure;
      if failure.None? {
        bookList := books;
      }
    }

    /** The two loads of `loadData`, which change nothing but allocate the
        genres and the books. */
    static method ReadFiles(dm: DataManager)
      returns (genres: seq<Genre>, books: seq<Book>, thrown: Option<JavaException>)
      ensures Records(genres) == DecodeGenres(dm.genresFile)
      ensures match DecodeBooks(dm.booksFile, genres)
              case Loaded(vs) => thrown.None? && Snapshots(books) == vs
              case Threw(e) => thrown == Some(e)
      ensures forall g :: g in genres ==> fresh(g)
      ensures Distinct(genres)
      ensures forall b :: b in books ==> fresh(b)
      ensures Distinct(books)
    {
      genres := dm.LoadGenres();
      ghost var records := Records(genres);
      books, thrown := dm.LoadBooks(genres);
      assert Records(genres) == records;
    }

    /** Both files hold the current lists. */
    ghost predicate InFiles()
      reads this, dataManager, genreList, bookList
    {
      && dataManager.genresFile == Some(EncodeGenres(Records(genreList)))
      && dataManager.booksFile == Some(EncodeBooks(Snapshots(bookList)).lines)
    }

    /** `saveData`: the genre file, then the book file. */
    method SaveData() returns (thrown: Option<JavaException>)
      modifies dataManager
      ensures InFiles()
      ensures thrown == EncodeBooks(Snapshots(bookList)).failure
    {
      dataManager.SaveGenres(genreList);
      thrown := dataManager.SaveBooks(bookList);
    }

    /** `addBook`: a null book throws on `getTitle()`; a null or blank title
        is rejected; otherwise the book goes to the end of the list and both
        files are saved. */
    method AddBook(book: Book?) returns (outcome: Outcome)
      modifies this, dataManager
      ensures book == null ==> outcome == Raised(NullPointer) && unchanged(this, dataManager)
      ensures book != null && !Filled(book.title)
              ==> outcome == Rejected(EmptyTitle) && unchanged(this, dataManager)
      ensures book != null && Filled(book.title)
              ==> && bookList == old(bookList) + [book] && genreList == old(genreList)
                  && InFiles() && outcome == SaveOutcome(EncodeBooks(Snapshots(bookList)).failure)
    {
      if book == null {
        return Raised(NullPointer);
      }
      if !Filled(book.title) {
        return Rejected(EmptyTitle);
      }
      bookList := bookList + [book];
      var thrown := SaveData();
      outcome := SaveOutcome(thrown);
    }

    /** `addGenre`: a null genre throws on `getName()`; a null or blank name
        is rejected; so is a name equal, ignoring case, to an existing one
        (the check throws at a genre with a null name met first); otherwise
        the genre goes to the end of the list and both files are saved. */
    method AddGenre(genre: Genre?) returns (outcome: Outcome)
      modifies this, dataManager
      ensures genre == null ==> outcome == Raised(NullPointer) && unchanged(this, dataManager)
      ensures genre != null && !Filled(genre.name)
              ==> outcome == Rejected(EmptyGenreName) && unchanged(this, dataManager)
      ensures genre != null && Filled(genre.name)
              ==> match ScanNames(old(Records(genreList)), genre.name.value)
                  case NullName => outcome == Raised(NullPointer) && unchanged(this, dataManager)
                  case Duplicate => outcome == Rejected(DuplicateGenre) && unchanged(this, dataManager)
                  case Fresh =>
                    && genreList == old(genreList) + [genre] && bookList == old(bookList)
                    && InFiles() && outcome == SaveOutcome(EncodeBooks(Snapshots(bookList)).failure)
    {
      if genre == null {
        return Raised(NullPointer);
      }
      if !Filled(genre.name) {
        return Rejected(EmptyGenreName);
      }
      var scan := ScanNames(Records(genreList), genre.name.value);
      if scan == NullName {
        return Raised(NullPointer);
      }
      if scan == Duplicate {
        return Rejected(DuplicateGenre);
      }
      genreList := genreList + [genre];
      var thrown := SaveData();
      outcome := SaveOutcome(thrown);
    }

    /** `filterBooksByGenre`: every book for null, otherwise the books whose
        genre equals the given one, in list order. */
    function FilterBooksByGenre(genre: Genre?): (r: seq<Book>)
      reads this, bookList
      ensures genre == null ==> r == bookList
      ensures genre != null ==> forall i :: 0 <= i < |r| ==> r[i] in bookList && r[i].genre != null && r[i].genre.id == genre.id
      ensures genre != null ==> forall i :: 0 <= i < |bookList| && bookList[i].genre != null && bookList[i].genre.id == genre.id ==> bookList[i] in r
      ensures genre != null ==> r == OfGenre(bookList, genre)
    {
      if genre == null then bookList else OfGenre(bookList, genre)
    }

    /** `getAllGenres`: a copy of the list (a value here, so later changes
        to either side do not reach the other). */
    function GetAllGenres(): (r: seq<Genre>)
      reads this
      ensures |r| == |genreList| && forall i :: 0 <= i < |r| ==> r[i] == genreList[i]
    {
      genreList
    }

    /** `getAllBooks`: a copy of the list, the same as filtering by null. */
    function GetAllBooks(): (r: seq<Book>)
      reads this, bookList
      ensures r == FilterBooksByGenre(null)
    {
      bookList
    }

    /** `updateBook`: a null book or one with a null id changes nothing; so
        does an id no book has. Otherwise the first book with the id is
        replaced, every other position and the length stay, and both files
        are saved. The search throws at a book with a null id met first. */
    method UpdateBook(updated: Book?) returns (outcome: Outcome)
      modifies this, dataManager
      ensures updated == null || updated.id.None? ==> outcome == Unchanged && unchanged(this, dataManager)
      ensures updated != null && updated.id.Some?
              ==> match FindId(old(bookList), updated.id.value)
                  case Found(k) =>
                    && bookList == old(bookList)[k := updated] && genreList == old(genreList)
                    && InFiles() && outcome == SaveOutcome(EncodeBooks(Snapshots(bookList)).failure)
                  case Missing => outcome == Unchanged && unchanged(this, dataManager)
                  case NullId => outcome == Raised(NullPointer) && unchanged(this, dataManager)
    {
      if updated == null || updated.id.None? {
        return Unchanged;
      }
      var search := SearchId(bookList, updated.id.value);
      match search
      case NullId =>
        return Raised(NullPointer);
      case Missing =>
        return Unchanged;
      case Found(index) =>
        bookList := bookList[index := updated];
        var thrown := SaveData();
        outcome := SaveOutcome(thrown);
    }

    /** `deleteBook`: a null book changes nothing. A book in the list with a
        null id makes `removeIf` throw before it removes anything. Otherwise
        every book with the given id goes, the others keep their order, and
        the files are saved only if something was removed. */
    method DeleteBook(removed: Book?) returns (outcome: Outcome)
      modifies this, dataManager
      ensures removed == null ==> outcome == Unchanged && unchanged(this, dataManager)
      ensures removed != null && !IdsSet(old(bookList))
              ==> outcome == Raised(NullPointer) && unchanged(this, dataManager)
      ensures removed != null && IdsSet(old(bookList)) && !HasId(old(bookList), removed.id)
              ==> outcome == Unchanged && unchanged(this, dataManager)
      ensures removed != null && IdsSet(old(bookList)) && HasId(old(bookList), removed.id)
              ==> && bookList == Without(old(bookList), removed.id) && genreList == old(genreList)
                  && InFiles() && outcome == SaveOutcome(EncodeBooks(Snapshots(bookList)).failure)
    {
      if removed == null {
        return Unchanged;
      }
      if exists i :: 0 <= i < |bookList| && bookList[i].id.None? {
        return Raised(NullPointer);
      }
      var kept := Without(bookList, removed.id);
      WithoutShrinksIffFound(bookList, removed.id);
      if |kept| == |bookList| {
        return Unchanged;
      }
      bookList := kept;
      var thrown := SaveData();
      outcome := SaveOutcome(thrown);
    }
  }
}
