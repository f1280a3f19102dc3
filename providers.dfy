/** The OnroerendErfgoedProvider: it turns the term records of the remote
    thesaurus into SKOS concepts and collections, and filters the listing of
    the remote into `{id, label}` entries.

    The remote service reached at the provider's url is passed to every
    operation as a `Remote` value; the HTTP calls themselves are not modelled.
    Exceptions the provider raises, or lets through, are `Error` values. */
module Providers {
  import opened Thesaurus
  import opened Skos

  const DefaultLanguageKey := "default_language"
  const DefaultLanguage := "nl"
  const DefaultUrl := "https://inventaris.onroerenderfgoed.be/thesaurus/typologie"

  const CollectionType := "collection"
  const ConceptType := "concept"
  const DepthAll := "all"

  datatype Error =
    | KeyError(field: string)     // a record lacks a field the provider indexes
    | TermUnavailable(id: Id)     // a `use_for` alias the remote does not have
    | RecursionLimit              // an alias chain longer than the fuel allows
    | UnexistingCollection        // the ValueError of a query scoped to a non-collection
    | SubtreeUnavailable(id: Id)  // a depth-"all" scope whose subtree the remote does not have

  datatype Result<+T> = Ok(value: T) | Err(error: Error)

  /** What `get_by_id` gives: a node, `False` for a 404, or an exception. */
  datatype Lookup = Found(node: Node) | NotFound | Raised(error: Error)

  /** The errors that resolving one id can raise. */
  predicate IsLookupError(e: Error)
  {
    e.KeyError? || e.TermUnavailable? || e.RecursionLimit?
  }

  // ------------------------------------------------------------------------
  // Construction

  /** The metadata after construction: "default_language" is added as "nl"
      when absent; every entry already present is kept. */
  function WithDefaultLanguage(metadata: map<string, string>): (m: map<string, string>)
    ensures DefaultLanguageKey in m
    ensures m[DefaultLanguageKey] ==
      if DefaultLanguageKey in metadata then metadata[DefaultLanguageKey] else DefaultLanguage
    ensures m.Keys == metadata.Keys + {DefaultLanguageKey}
    ensures forall k :: k in metadata ==> m[k] == metadata[k]
  {
    if DefaultLanguageKey in metadata then metadata
    else metadata[DefaultLanguageKey := DefaultLanguage]
  }

  /** The endpoint a provider talks to: the url it was given, verbatim, or the
      typologie thesaurus when it was given none. */
  function Endpoint(url: Option<string>): (u: string)
    ensures url.Some? ==> u == url.value
    ensures url.None? ==> u == DefaultUrl
  {
    match url
    case Some(given) => given
    case None => DefaultUrl
  }

  // ------------------------------------------------------------------------
  // get_by_id, as a specification

  /** `_get_term_by_id`: the record for `id`. It never looks at the status
      code, so an id the remote does not have fails when its fields are read. */
  function FetchTerm(remote: Remote, id: Id): (r: Result<Term>)
    ensures r.Ok? <==> id in remote.terms
    ensures r.Ok? ==> r.value == remote.terms[id]
    ensures r.Err? ==> r.error == TermUnavailable(id)
  {
    if id in remote.terms then Ok(remote.terms[id]) else Err(TermUnavailable(id))
  }

  function PrefLabelOf(t: Term): Label
  {
    Label(PrefLabel, t.language, t.term)
  }

  function AltLabelOf(t: Term): Label
  {
    Label(AltLabel, t.language, t.term)
  }

  /** The alternative labels contributed by the alias ids `ids`, in order; the
      first alias the remote does not have is the one that fails. */
  function AltLabels(terms: map<Id, Term>, ids: seq<Id>): (r: Result<seq<Label>>)
    ensures r.Ok? <==> forall i :: 0 <= i < |ids| ==> ids[i] in terms
    ensures r.Ok? ==> |r.value| == |ids|
    ensures r.Ok? ==> forall i :: 0 <= i < |ids| ==> r.value[i] == AltLabelOf(terms[ids[i]])
    ensures r.Err? ==> exists j :: 0 <= j < |ids| && ids[j] !in terms && r.error == TermUnavailable(ids[j])
                                  && forall i :: 0 <= i < j ==> ids[i] in terms
    decreases |ids|
  {
    if ids == [] then Ok([])
    else
      var front := ids[..|ids| - 1];
      var last := ids[|ids| - 1];
      assert forall i :: 0 <= i < |front| ==> front[i] == ids[i];
      match AltLabels(terms, front)
      case Err(e) => Err(e)
      case Ok(alts) =>
        if last in terms then Ok(alts + [AltLabelOf(terms[last])])
        else Err(TermUnavailable(last))
  }

  /** The alias chain of `get_by_id`: the key of the record a node is built
      from, `None` when some id along the chain is unknown to the remote.
      Each "ND" hop uses one unit of fuel. */
  function Follow(terms: map<Id, Term>, id: Id, fuel: nat): (r: Result<Option<Id>>)
    ensures r.Ok? && r.value.Some? ==> r.value.value in terms && terms[r.value.value].termType != ND
    ensures id !in terms ==> r == Ok(None)
    ensures id in terms && terms[id].termType != ND ==> r == Ok(Some(id))
    ensures id in terms && terms[id].termType == ND && terms[id].use.None? ==> r == Err(KeyError("use"))
    ensures id in terms && terms[id].termType == ND && terms[id].use.Some? && fuel == 0 ==> r == Err(RecursionLimit)
    ensures id in terms && terms[id].termType == ND && terms[id].use.Some? && fuel > 0 ==>
              r == Follow(terms, terms[id].use.value, fuel - 1)
    ensures r.Err? ==> r.error == KeyError("use") || r.error == RecursionLimit
    decreases fuel
  {
    if id !in terms then Ok(None)
    else if terms[id].termType != ND then Ok(Some(id))
    else if terms[id].use.None? then Err(KeyError("use"))
    else if fuel == 0 then Err(RecursionLimit)
    else Follow(terms, terms[id].use.value, fuel - 1)
  }

  /** `[broader_term]` when the record has one. */
  function Broader(t: Term): (b: seq<Id>)
    ensures t.broaderTerm.Some? ==> b == [t.broaderTerm.value]
    ensures t.broaderTerm.None? ==> b == []
  {
    match t.broaderTerm
    case Some(parent) => [parent]
    case None => []
  }

  /** The node built from a non-alias record `t`. */
  function Materialize(terms: map<Id, Term>, t: Term): (r: Result<Node>)
    ensures r.Ok? <==> forall i :: 0 <= i < |OrEmpty(t.useFor)| ==> OrEmpty(t.useFor)[i] in terms
    ensures r.Err? ==> r.error.TermUnavailable? && r.error.id in OrEmpty(t.useFor) && r.error.id !in terms
    ensures r.Ok? ==> r.value.id == t.id && (r.value.Concept? <==> t.termType == PT)
    ensures r.Ok? ==> |r.value.labels| == 1 + |OrEmpty(t.useFor)| && r.value.labels[0] == PrefLabelOf(t)
    ensures r.Ok? ==> forall i :: 0 <= i < |OrEmpty(t.useFor)| ==>
                        r.value.labels[i + 1] == AltLabelOf(terms[OrEmpty(t.useFor)[i]])
    ensures r.Ok? && r.value.Concept? ==>
              r.value.broader == Broader(t) && r.value.narrower == OrEmpty(t.narrowerTerms)
              && r.value.related == OrEmpty(t.relatedTerms)
    ensures r.Ok? && r.value.Collection? ==> r.value.members == OrEmpty(t.narrowerTerms)
  {
    match AltLabels(terms, OrEmpty(t.useFor))
    case Err(e) => Err(e)
    case Ok(alts) =>
      var labels := [PrefLabelOf(t)] + alts;
      if t.termType == PT then Ok(Concept(t.id, labels, Broader(t), OrEmpty(t.narrowerTerms), OrEmpty(t.relatedTerms)))
      else Ok(Collection(t.id, labels, OrEmpty(t.narrowerTerms)))
  }

  /** A built node as `get_by_id` gives it back, or the exception building raised. */
  function AsLookup(r: Result<Node>): (l: Lookup)
    ensures l.Found? <==> r.Ok?
    ensures r.Ok? ==> l.node == r.value
    ensures r.Err? ==> l == Raised(r.error)
  {
    match r
    case Ok(n) => Found(n)
    case Err(e) => Raised(e)
  }

  /** `get_by_id(id)`: follow the alias chain, then build the node. */
  function Resolve(remote: Remote, id: Id, fuel: nat): (r: Lookup)
    ensures r.Raised? ==> IsLookupError(r.error)
    ensures r.Raised? && r.error.KeyError? ==> r.error == KeyError("use")
    ensures r.NotFound? <==> Follow(remote.terms, id, fuel) == Ok(None)
    ensures r.Found? ==> exists k :: k in remote.terms && remote.terms[k].termType != ND
                                    && Materialize(remote.terms, remote.terms[k]) == Ok(r.node)
  {
    match Follow(remote.terms, id, fuel)
    case Err(e) => Raised(e)
    case Ok(None) => NotFound
    case Ok(Some(k)) => AsLookup(Materialize(remote.terms, remote.terms[k]))
  }

  // ------------------------------------------------------------------------
  // The intermediate dictionary of get_by_id and _from_dict

  datatype Kind = ConceptKind | CollectionKind

  /** The `concept` dictionary `get_by_id` fills in; an absent key is `None`. */
  datatype Draft = Draft(
    id: Id,
    kind: Kind,
    labels: Option<seq<Label>>,
    broader: Option<seq<Id>>,
    narrower: Option<seq<Id>>,
    members: Option<seq<Id>>,
    related: Option<seq<Id>>)

  /** `_from_dict`: a Concept or a Collection by kind, every absent list empty. */
  function FromDict(d: Draft): (n: Node)
    ensures n.id == d.id
    ensures n.Concept? <==> d.kind == ConceptKind
    ensures n.labels == if d.labels.Some? then d.labels.value else []
    ensures n.Concept? ==> n.broader == (if d.broader.Some? then d.broader.value else [])
    ensures n.Concept? ==> n.narrower == (if d.narrower.Some? then d.narrower.value else [])
    ensures n.Concept? ==> n.related == (if d.related.Some? then d.related.value else [])
    ensures n.Collection? ==> n.members == (if d.members.Some? then d.members.value else [])
  {
    match d.kind
    case ConceptKind => Concept(d.id, OrEmpty(d.labels), OrEmpty(d.broader), OrEmpty(d.narrower), OrEmpty(d.related))
    case CollectionKind => Collection(d.id, OrEmpty(d.labels), OrEmpty(d.members))
  }

  // ------------------------------------------------------------------------
  // _do_query, as a specification

  /** The `collection` part of a query: the scoping id and an optional depth;
      an absent key is `None`. */
  datatype CollectionScope = CollectionScope(id: Option<Id>, depth: Option<string>)

  /** A query dictionary; an absent key is `None`. */
  datatype Query = Query(nodeType: Option<string>, labelText: Option<string>, collection: Option<CollectionScope>)

  /** One result of `find` and `get_all`. */
  datatype Entry = Entry(id: Id, text: string)

  predicate AsksFor(query: Option<Query>, nodeType: string)
  {
    query.Some? && query.value.nodeType == Some(nodeType)
  }

  predicate Scoped(query: Option<Query>)
  {
    query.Some? && query.value.collection.Some?
  }

  /** The `type[]` parameter of the listing request: collections are "HR" and
      "NL", concepts are "PT", and aliases are never asked for. */
  function TypeFilter(query: Option<Query>): (types: seq<string>)
    ensures PT in types <==> !AsksFor(query, CollectionType)
    ensures HR in types <==> !AsksFor(query, ConceptType)
    ensures NL in types <==> !AsksFor(query, ConceptType)
    ensures ND !in types
    ensures forall tt :: tt in types ==> tt == HR || tt == PT || tt == NL
  {
    if AsksFor(query, CollectionType) then [HR, NL]
    else if AsksFor(query, ConceptType) then [PT]
    else [HR, PT, NL]
  }

  /** The `term` parameter of the listing request: the query's label, if any. */
  function SearchTerm(query: Option<Query>): (term: Option<string>)
    ensures term.Some? <==> query.Some? && query.value.labelText.Some?
    ensures term.Some? ==> term.value == query.value.labelText.value
  {
    if query.Some? then query.value.labelText else None
  }

  /** The items the listing endpoint answers for a query. */
  function Listed(remote: Remote, query: Option<Query>): seq<Item>
  {
    remote.listing(TypeFilter(query), SearchTerm(query))
  }

  /** `expand(id)`: the remote's subtree, verbatim, or `False` on a 404. */
  function Expand(remote: Remote, id: Id): (r: Option<seq<Id>>)
    ensures r.None? <==> id !in remote.subtrees
    ensures r.Some? ==> r.value == remote.subtrees[id]
  {
    if id in remote.subtrees then Some(remote.subtrees[id]) else None
  }

  /** `expand_concept(id)` is `expand(id)`. */
  function ExpandConcept(remote: Remote, id: Id): (r: Option<seq<Id>>)
    ensures r == Expand(remote, id)
  {
    Expand(remote, id)
  }

  /** The ids a scoped query keeps: the subtree for depth "all", the direct
      members otherwise. When the remote has no subtree, `expand` gives
      `False`; testing an id for membership in it raises, which happens only
      once some item is listed (see `Answer`). */
  function ScopeMembers(remote: Remote, coll: Node, depth: Option<string>): (r: Result<seq<Id>>)
    requires coll.Collection?
    ensures depth == Some(DepthAll) ==> (r.Ok? <==> coll.id in remote.subtrees)
    ensures depth == Some(DepthAll) && r.Ok? ==> r.value == remote.subtrees[coll.id]
    ensures depth == Some(DepthAll) && r.Err? ==> r.error == SubtreeUnavailable(coll.id)
    ensures depth != Some(DepthAll) ==> r == Ok(coll.members)
  {
    if depth == Some(DepthAll) then
      match Expand(remote, coll.id)
      case None => Err(SubtreeUnavailable(coll.id))
      case Some(ids) => Ok(ids)
    else Ok(coll.members)
  }

  /** The listed items whose id is a member, in listing order, each as often
      as it is listed. */
  function Restrict(items: seq<Item>, members: seq<Id>): (r: seq<Item>)
    ensures forall x :: x in r <==> x in items && x.id in members
    ensures forall x :: multiset(r)[x] == if x.id in members then multiset(items)[x] else 0
    ensures |r| <= |items|
  {
    if items == [] then []
    else
      var kept := if items[0].id in members then [items[0]] else [];
      assert items == [items[0]] + items[1..];
      assert multiset(items) == multiset{items[0]} + multiset(items[1..]);
      kept + Restrict(items[1..], members)
  }

  function EntryOf(x: Item): Entry
  {
    Entry(x.id, x.omschrijving)
  }

  /** One entry per item, in order: the item's id, labelled with its omschrijving. */
  function Project(items: seq<Item>): (r: seq<Entry>)
    ensures |r| == |items|
    ensures forall i :: 0 <= i < |items| ==> r[i] == EntryOf(items[i])
  {
    if items == [] then [] else [EntryOf(items[0])] + Project(items[1..])
  }

  /** What `_do_query(query)` answers. A scope without an id raises KeyError;
      a scope that is missing or a concept raises the ValueError; a missing
      subtree raises only when some item is listed. */
  function Answer(remote: Remote, query: Option<Query>, fuel: nat): Result<seq<Entry>>
  {
    var items := Listed(remote, query);
    if !Scoped(query) then Ok(Project(items))
    else
      var scope := query.value.collection.value;
      if scope.id.None? then Err(KeyError("id"))
      else
        match Resolve(remote, scope.id.value, fuel)
        case Raised(e) => Err(e)
        case NotFound => Err(UnexistingCollection)
        case Found(n) =>
          if n.Concept? then Err(UnexistingCollection)
          else
            match ScopeMembers(remote, n, scope.depth)
            case Err(e) => if items == [] then Ok([]) else Err(e)
            case Ok(members) => Ok(Project(Restrict(items, members)))
  }

  // ------------------------------------------------------------------------
  // The provider object

  class Provider {
    var metadata: map<string, string>
    var url: string

    constructor (metadata: map<string, string>, url: Option<string>)
      ensures this.metadata == WithDefaultLanguage(metadata)
      ensures this.url == Endpoint(url)
    {
      var m := metadata;
      if DefaultLanguageKey !in m {
        m := m[DefaultLanguageKey := DefaultLanguage];
      }
      this.metadata := m;
      var u := DefaultUrl;
      if url.Some? {
        u := url.value;
      }
      this.url := u;
    }

    /** `get_by_id`: builds the `concept` dictionary step by step, then hands
        it to `_from_dict`. Alias records resolve to their `use` target. */
    method GetById(remote: Remote, id: Id, fuel: nat) returns (r: Lookup)
      ensures r == Resolve(remote, id, fuel)
      decreases fuel
    {
      if id !in remote.terms {
        return NotFound;
      }
      var result := remote.terms[id];
      if result.termType == ND {
        if result.use.None? {
          return Raised(KeyError("use"));
        }
        if fuel == 0 {
          return Raised(RecursionLimit);
        }
        r := GetById(remote, result.use.value, fuel - 1);
        return;
      }
      r := Build(remote, result);
    }

    /** The part of `get_by_id` after alias resolution: the `concept`
        dictionary is filled in step by step, one alternative label per
        `use_for` alias, and handed to `_from_dict`. */
    method Build(remote: Remote, result: Term) returns (r: Lookup)
      ensures r == AsLookup(Materialize(remote.terms, result))
    {
      var kind := if result.termType == PT then ConceptKind else CollectionKind;
      var concept := Draft(result.id, kind, Some([PrefLabelOf(result)]), None, None, None, None);
      if result.broaderTerm.Some? {
        concept := concept.(broader := Some([result.broaderTerm.value]));
      }
      if result.narrowerTerms.Some? {
        if concept.kind == ConceptKind {
          concept := concept.(narrower := result.narrowerTerms);
        } else {
          concept := concept.(members := result.narrowerTerms);
        }
      }
      if result.useFor.Some? {
        var extended := AddAltLabels(remote, concept, result.useFor.value);
        if extended.Err? {
          return Raised(extended.error);
        }
        concept := extended.value;
      } else {
        assert [PrefLabelOf(result)] + [] == [PrefLabelOf(result)];
      }
      if result.relatedTerms.Some? {
        concept := concept.(related := result.relatedTerms);
      }
      r := Found(FromDict(concept));
    }

    /** The `use_for` loop of `get_by_id`: for each alias id in order, the
        alias's record is fetched and an altLabel with its own language and
        term is appended to the dictionary's labels. */
    method AddAltLabels(remote: Remote, concept: Draft, ids: seq<Id>) returns (r: Result<Draft>)
      requires concept.labels.Some?
      ensures r.Ok? <==> AltLabels(remote.terms, ids).Ok?
      ensures r.Ok? ==> r.value == concept.(labels := Some(concept.labels.value + AltLabels(remote.terms, ids).value))
      ensures r.Err? ==> r.error == AltLabels(remote.terms, ids).error
    {
      var draft := concept;
      var i := 0;
      assert ids[..0] == [] && concept.labels.value + [] == concept.labels.value;
      while i < |ids|
        invariant 0 <= i <= |ids|
        invariant AltLabels(remote.terms, ids[..i]).Ok?
        invariant draft == concept.(labels := Some(concept.labels.value + AltLabels(remote.terms, ids[..i]).value))
      {
        assert ids[..i + 1][..i] == ids[..i];
        var term := FetchTerm(remote, ids[i]);
        if term.Err? {
          assert forall k :: 0 <= k < i ==> ids[k] in remote.terms by {
            assert forall k :: 0 <= k < i ==> ids[..i][k] == ids[k];
          }
          return Err(term.error);
        }
        ghost var done := AltLabels(remote.terms, ids[..i]).value;
        assert AltLabels(remote.terms, ids[..i + 1]) == Ok(done + [AltLabelOf(term.value)]);
        assert concept.labels.value + done + [AltLabelOf(term.value)]
            == concept.labels.value + (done + [AltLabelOf(term.value)]);
        draft := draft.(labels := Some(draft.labels.value + [AltLabelOf(term.value)]));
        i := i + 1;
      }
      assert ids[..i] == ids;
      r := Ok(draft);
    }

    /** `_do_query`: fills in the request arguments, then narrows the listed
        items to a collection when the query asks for one. */
    method DoQuery(remote: Remote, query: Option<Query>, fuel: nat) returns (r: Result<seq<Entry>>)
      ensures r == Answer(remote, query, fuel)
    {
      var types := [HR, PT, NL];
      var term: Option<string> := None;
      if query.Some? {
        if query.value.nodeType.Some? {
          if query.value.nodeType.value == CollectionType {
            types := [HR, NL];
          } else if query.value.nodeType.value == ConceptType {
            types := [PT];
          }
        }
        if query.value.labelText.Some? {
          term := query.value.labelText;
        }
      }
      var items := remote.listing(types, term);
      if query.Some? && query.value.collection.Some? {
        var scope := query.value.collection.value;
        if scope.id.None? {
          return Err(KeyError("id"));
        }
        var coll := GetById(remote, scope.id.value, fuel);
        if coll.Raised? {
          return Err(coll.error);
        }
        if coll.NotFound? || !coll.node.Collection? {
          return Err(UnexistingCollection);
        }
        var members: seq<Id>;
        if scope.depth == Some(DepthAll) {
          var expansion := Expand(remote, coll.node.id);
          if expansion.None? {
            // `members` is `False`: only the first membership test raises
            if items != [] {
              return Err(SubtreeUnavailable(coll.node.id));
            }
            members := [];
          } else {
            members := expansion.value;
          }
        } else {
          members := coll.node.members;
        }
        items := Restrict(items, members);
      }
      r := Ok(Project(items));
    }

    /** `find(query)`. */
    method Find(remote: Remote, query: Query, fuel: nat) returns (r: Result<seq<Entry>>)
      ensures r == Answer(remote, Some(query), fuel)
    {
      r := DoQuery(remote, Some(query), fuel);
    }

    /** `get_all()`: a query with no filter. */
    method GetAll(remote: Remote, fuel: nat) returns (r: Result<seq<Entry>>)
      ensures r == Answer(remote, None, fuel)
    {
      r := DoQuery(remote, None, fuel);
    }
  }
}
