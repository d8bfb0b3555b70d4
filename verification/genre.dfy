/** `Genre`: a category a book can belong to. The id is final; the name can
    be changed. Two genres are equal when their ids are. */
module Genres {
  import opened JavaLang

  /** The state of a `Genre` object: what the genre file stores of it. */
  datatype GenreRecord = GenreRecord(id: string, name: Option<string>)

  class Genre {
    const id: string
    var name: Option<string>

    function Value(): GenreRecord
      reads this
    {
      GenreRecord(id, name)
    }

    /** `Genre(name)`: a fresh id (`UUID.randomUUID()`, passed in here as
        `freshId`) and the name as given. */
    constructor Create(freshId: string, name: Option<string>)
      ensures id == freshId && this.name == name
    {
      id := freshId;
      this.name := name;
    }

    /** `Genre(id, name)`: both values kept verbatim (used when loading). */
    constructor Restore(id: string, name: Option<string>)
      ensures this.id == id && this.name == name
    {
      this.id := id;
      this.name := name;
    }

    /** `setName`: only the name changes; the id is final. */
    method SetName(name: Option<string>)
      modifies this
      ensures Value() == GenreRecord(id, name)
    {
      this.name := name;
    }

    /** `toString()`: the name, as the combo boxes show it. */
    function ToString(): (r: Option<string>)
      reads this
      ensures r == Value().name
    {
      name
    }

    /** `equals`: same class and same id, whatever the names. */
    function Equals(o: Genre?): (r: bool)
      ensures r <==> o != null && o.id == id
    {
      if this == o then true
      else if o == null then false
      else id == o.id
    }

    /** `hashCode`: `Objects.hash(id)`. */
    function HashCode(): Int32
    {
      ObjectsHash(Some(id))
    }
  }

  /** The states of a list of genres, in list order. */
  function Records(gs: seq<Genre>): (rs: seq<GenreRecord>)
    reads gs
    ensures |rs| == |gs|
  {
    if gs == [] then [] else Records(gs[..|gs| - 1]) + [gs[|gs| - 1].Value()]
  }

  /** Each genre's state is at its own position. */
  lemma {:induction false} RecordAt(gs: seq<Genre>, i: nat)
    requires i < |gs|
    ensures Records(gs)[i] == gs[i].Value()
    decreases |gs|
  {
    var init := gs[..|gs| - 1];
    if i < |gs| - 1 {
      RecordAt(init, i);
      assert init[i] == gs[i];
    }
  }

  /** Equal genres hash alike, so `hashCode` agrees with `equals`. */
  lemma EqualGenresHashAlike(a: Genre, b: Genre)
    requires a.Equals(b)
    ensures a.HashCode() == b.HashCode()
  {
  }
}
