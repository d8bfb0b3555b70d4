/** `Book` and its two concrete subclasses `PhysicalBook` and `Ebook`.
    Dafny has no subclassing here, so one class carries the runtime class
    as the constant `ebook`, and the `local` field that only an `Ebook` has.
    Every field except the id can be set; nothing is validated. */
module Books {
  import opened JavaLang
  import opened JavaInt
  import opened JavaText
  import opened Status
  import opened Genres

  /** The runtime class of a book, with the `Ebook`'s own field. */
  datatype Kind = Physical | Ebook(local: Option<string>)

  /** The state of a book object: every field, the genre as a reference. */
  datatype BookValue = BookValue(
    kind: Kind,
    id: Option<string>,
    title: Option<string>,
    author: Option<string>,
    totalPages: Int32,
    publisher: Option<string>,
    description: Option<string>,
    genre: Genre?,
    status: Option<BookStatus>,
    rating: Int32,
    currentPage: Int32,
    notes: seq<string>,
    quotes: seq<string>)

  /** What the full ("load") constructor of `Book` stores: every argument
      verbatim, except that a null status becomes TO_READ and null lists
      become empty lists. */
  function Restored(kind: Kind, id: Option<string>, title: Option<string>, author: Option<string>,
                    totalPages: Int32, publisher: Option<string>, description: Option<string>,
                    genre: Genre?, status: Option<BookStatus>, rating: Int32, currentPage: Int32,
                    notes: Option<seq<string>>, quotes: Option<seq<string>>): BookValue
  {
    BookValue(kind, id, title, author, totalPages, publisher, description, genre,
              Some(match status { case Some(s) => s case None => ToRead }),
              rating, currentPage,
              match notes { case Some(n) => n case None => [] },
              match quotes { case Some(q) => q case None => [] })
  }

  /** What the simple ("create") constructor of `Book` stores: a fresh id,
      status TO_READ, rating 0, page 0 and no notes or quotes. */
  function Created(kind: Kind, freshId: string, title: Option<string>, author: Option<string>,
                   totalPages: Int32, publisher: Option<string>, description: Option<string>,
                   genre: Genre?): BookValue
  {
    BookValue(kind, Some(freshId), title, author, totalPages, publisher, description, genre,
              Some(ToRead), 0, 0, [], [])
  }

  class Book {
    /** The runtime class: `Ebook` when true, `PhysicalBook` otherwise. */
    const ebook: bool
    const id: Option<string>
    var title: Option<string>
    var author: Option<string>
    var totalPages: Int32
    var currentPage: Int32
    var publisher: Option<string>
    var genre: Genre?
    var description: Option<string>
    var status: Option<BookStatus>
    var rating: Int32
    var notes: seq<string>
    var quotes: seq<string>
    /** `Ebook.local`; a `PhysicalBook` has no such field and keeps it null. */
    var local: Option<string>

    function Value(): BookValue
      reads this
    {
      BookValue(if ebook then Ebook(local) else Physical, id, title, author, totalPages,
                publisher, description, genre, status, rating, currentPage, notes, quotes)
    }

    /** `PhysicalBook(id, title, ..., notes, quotes)`: forwards to `Book`'s
        full constructor. */
    constructor LoadPhysical(id: Option<string>, title: Option<string>, author: Option<string>,
                             totalPages: Int32, publisher: Option<string>, description: Option<string>,
                             genre: Genre?, status: Option<BookStatus>, rating: Int32, currentPage: Int32,
                             notes: Option<seq<string>>, quotes: Option<seq<string>>)
      ensures Value() == Restored(Physical, id, title, author, totalPages, publisher, description,
                                  genre, status, rating, currentPage, notes, quotes)
    {
      ebook := false;
      this.id := id;
      this.title := title;
      this.author := author;
      this.totalPages := totalPages;
      this.publisher := publisher;
      this.description := description;
      this.genre := genre;
      this.rating := rating;
      this.currentPage := currentPage;
      this.status := Some(if status.Some? then status.value else ToRead);
      this.notes := if notes.Some? then notes.value else [];
      this.quotes := if quotes.Some? then quotes.value else [];
      local := None;
    }

    /** `PhysicalBook(title, author, totalPages, publisher, description, genre)`:
        forwards to `Book`'s simple constructor; `freshId` stands for
        `UUID.randomUUID().toString()`. */
    constructor CreatePhysical(freshId: string, title: Option<string>, author: Option<string>,
                               totalPages: Int32, publisher: Option<string>,
                               description: Option<string>, genre: Genre?)
      ensures Value() == Created(Physical, freshId, title, author, totalPages, publisher,
                                 description, genre)
    {
      ebook := false;
      id := Some(freshId);
      this.title := title;
      this.author := author;
      this.totalPages := totalPages;
      this.publisher := publisher;
      this.description := description;
      this.genre := genre;
      status := Some(ToRead);
      rating := 0;
      currentPage := 0;
      notes := [];
      quotes := [];
      local := None;
    }

    /** `Ebook(id, title, ..., notes, quotes, local)`: `Book`'s full
        constructor plus `local`. */
    constructor LoadEbook(id: Option<string>, title: Option<string>, author: Option<string>,
                          totalPages: Int32, publisher: Option<string>, description: Option<string>,
                          genre: Genre?, status: Option<BookStatus>, rating: Int32, currentPage: Int32,
                          notes: Option<seq<string>>, quotes: Option<seq<string>>,
                          local: Option<string>)
      ensures Value() == Restored(Ebook(local), id, title, author, totalPages, publisher,
                                  description, genre, status, rating, currentPage, notes, quotes)
    {
      ebook := true;
      this.id := id;
      this.title := title;
      this.author := author;
      this.totalPages := totalPages;
      this.publisher := publisher;
      this.description := description;
      this.genre := genre;
      this.rating := rating;
      this.currentPage := currentPage;
      this.status := Some(if status.Some? then status.value else ToRead);
      this.notes := if notes.Some? then notes.value else [];
      this.quotes := if quotes.Some? then quotes.value else [];
      this.local := local;
    }

    /** `Ebook(title, author, totalPages, publisher, description, genre, local)`:
        `Book`'s simple constructor plus `local`. */
    constructor CreateEbook(freshId: string, title: Option<string>, author: Option<string>,
                            totalPages: Int32, publisher: Option<string>,
                            description: Option<string>, genre: Genre?, local: Option<string>)
      ensures Value() == Created(Ebook(local), freshId, title, author, totalPages, publisher,
                                 description, genre)
    {
      ebook := true;
      id := Some(freshId);
      this.title := title;
      this.author := author;
      this.totalPages := totalPages;
      this.publisher := publisher;
      this.description := description;
      this.genre := genre;
      status := Some(ToRead);
      rating := 0;
      currentPage := 0;
      notes := [];
      quotes := [];
      this.local := local;
    }

    method SetTitle(title: Option<string>)
      modifies this
      ensures Value() == old(Value()).(title := title)
    {
      this.title := title;
    }

    method SetAuthor(author: Option<string>)
      modifies this
      ensures Value() == old(Value()).(author := author)
    {
      this.author := author;
    }

    /** No check against `currentPage`: any `int` is stored. */
    method SetTotalPages(totalPages: Int32)
      modifies this
      ensures Value() == old(Value()).(totalPages := totalPages)
    {
      this.totalPages := totalPages;
    }

    method SetPublisher(publisher: Option<string>)
      modifies this
      ensures Value() == old(Value()).(publisher := publisher)
    {
      this.publisher := publisher;
    }

    method SetDescription(description: Option<string>)
      modifies this
      ensures Value() == old(Value()).(description := description)
    {
      this.description := description;
    }

    method SetGenre(genre: Genre?)
      modifies this
      ensures Value() == old(Value()).(genre := genre)
    {
      this.genre := genre;
    }

    /** Accepts null, unlike the constructors, which replace it by TO_READ. */
    method SetStatus(status: Option<BookStatus>)
      modifies this
      ensures Value() == old(Value()).(status := status)
    {
      this.status := status;
    }

    /** No range check: any `int` is stored. */
    method SetRating(rating: Int32)
      modifies this
      ensures Value() == old(Value()).(rating := rating)
    {
      this.rating := rating;
    }

    /** No range check: a page past `totalPages` or below zero is stored. */
    method SetCurrentPage(currentPage: Int32)
      modifies this
      ensures Value() == old(Value()).(currentPage := currentPage)
    {
      this.currentPage := currentPage;
    }

    method SetNotes(notes: seq<string>)
      modifies this
      ensures Value() == old(Value()).(notes := notes)
    {
      this.notes := notes;
    }

    method SetQuotes(quotes: seq<string>)
      modifies this
      ensures Value() == old(Value()).(quotes := quotes)
    {
      this.quotes := quotes;
    }

    /** `Ebook.getLocal()`. */
    function Local(): (r: Option<string>)
      requires ebook
      reads this
      ensures Value().kind == Ebook(r)
    {
      local
    }

    /** `Ebook.setLocal()`: only the location changes. */
    method SetLocal(local: Option<string>)
      requires ebook
      modifies this
      ensures Value() == old(Value()).(kind := Ebook(local))
    {
      this.local := local;
    }

    /** `toString()`: `title + " / " + author + " / Total páginas:" + totalPages`,
        the label shown in lists. */
    function ToString(): (r: string)
      reads this
      ensures StartsWith(r, JavaStr(title) + " / " + JavaStr(author) + " / Total p\U{E1}ginas:")
      ensures EndsWith(r, IntToString(totalPages))
    {
      JavaStr(title) + " / " + JavaStr(author) + " / Total p\U{E1}ginas:" + IntToString(totalPages)
    }

    /** `equals`: true exactly for a book of the same runtime class with an
        equal id; every other field is ignored. The call is defined unless
        Java would dereference a null id (`id.equals(...)` on a distinct
        object of the same class). */
    function Equals(o: Book?): (r: bool)
      requires o == null || o == this || o.ebook != ebook || id.Some?
      ensures r <==> o != null && o.ebook == ebook && o.id == id
    {
      if this == o then true
      else if o == null || o.ebook != ebook then false
      else id == o.id
    }

    /** `hashCode`: `Objects.hash(id)`, which allows a null id. */
    function HashCode(): Int32
    {
      ObjectsHash(id)
    }
  }

  /** The states of a list of books, in list order. */
  function Snapshots(bs: seq<Book>): (vs: seq<BookValue>)
    reads bs
    ensures |vs| == |bs|
  {
    if bs == [] then [] else Snapshots(bs[..|bs| - 1]) + [bs[|bs| - 1].Value()]
  }

  /** Each book's state is at its own position. */
  lemma {:induction false} SnapshotAt(bs: seq<Book>, i: nat)
    requires i < |bs|
    ensures Snapshots(bs)[i] == bs[i].Value()
    decreases |bs|
  {
    var init := bs[..|bs| - 1];
    if i < |bs| - 1 {
      SnapshotAt(init, i);
      assert init[i] == bs[i];
    }
  }

  /** Equal books hash alike. */
  lemma EqualBooksHashAlike(a: Book, b: Book)
    requires a.id.Some? && a.Equals(b)
    ensures a.HashCode() == b.HashCode()
  {
  }

  /** An `Ebook` never equals a `PhysicalBook`, even with the same id. */
  lemma EbookNeverEqualsPhysical(a: Book, b: Book)
    requires a.ebook && !b.ebook
    ensures !a.Equals(b) && !b.Equals(a)
  {
  }
}
