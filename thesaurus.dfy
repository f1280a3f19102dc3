/** The remote thesaurus service of Onroerend Erfgoed, seen as data.
    A term record is what `GET {url}/{id}.json` answers, a listing item is one
    entry of `GET {url}/lijst.json`, and a subtree is what
    `GET {url}/{id}/subtree.json` answers. A key missing from a map stands for
    the service answering 404. */
module Thesaurus {

  /** Term identifiers. The service numbers its terms; an identifier it does
      not know (a string such as "RESTAFVAL", say) is simply absent from the maps. */
  type Id = int

  datatype Option<+T> = None | Some(value: T)

  /** The value of an optional list field, or the empty list when it is absent. */
  function OrEmpty<T>(o: Option<seq<T>>): (s: seq<T>)
    ensures o.Some? ==> s == o.value
    ensures o.None? ==> s == []
  {
    match o
    case Some(v) => v
    case None => []
  }

  /** The term-type markers the service uses. */
  const PT := "PT"  // primary descriptor: a concept
  const ND := "ND"  // non-descriptor: an alias that names its primary term in `use`
  const HR := "HR"  // hierarchy marker: a collection
  const NL := "NL"  // the third marker the listing asks for by default

  /** A term record. `termType` stays a string: the provider only ever
      compares it with "ND" and "PT". */
  datatype Term = Term(
    id: Id,
    term: string,
    language: string,
    termType: string,
    broaderTerm: Option<Id>,
    narrowerTerms: Option<seq<Id>>,
    useFor: Option<seq<Id>>,
    relatedTerms: Option<seq<Id>>,
    use: Option<Id>)

  /** One entry of the listing endpoint. */
  datatype Item = Item(id: Id, omschrijving: string)

  /** The service behind one thesaurus endpoint:
      - `terms`: the record answered for each known id;
      - `listing`: the items answered for a list of term types and an optional search term;
      - `subtrees`: the descendant ids answered for each collection id the service knows. */
  datatype Remote = Remote(
    terms: map<Id, Term>,
    listing: (seq<string>, Option<string>) -> seq<Item>,
    subtrees: map<Id, seq<Id>>)
}
