# skosprovider_oe in Dafny

A model of `OnroerendErfgoedProvider`, the skosprovider vocabulary provider
for the thesaurus REST services of Onroerend Erfgoed (inventaris.onroerenderfgoed.be).
The provider translates the remote service's term records into SKOS concepts
and collections, and turns the remote's listing into `{id, label}` entries,
optionally limited to the members of one collection.

The remote service is data here (`Thesaurus.Remote`):

- `terms: map<Id, Term>` is what `{url}/{id}.json` answers. A missing key is a 404.
- `listing(types, term)` is what `{url}/lijst.json?type[]=…&term=…` answers.
- `subtrees: map<Id, seq<Id>>` is what `{url}/{id}/subtree.json` answers. A missing key is a 404.

Every operation takes the remote as a parameter: it is the service behind the
provider's `url`.

Files and modules:

- `thesaurus.dfy` (`Thesaurus`): the wire shapes. A term record has the optional
  fields `broader_term`, `narrower_terms`, `use_for`, `related_terms` and `use`.
  A listing item is `{id, omschrijving}`.
- `skos.dfy` (`Skos`): labels (`prefLabel` / `altLabel`) and the two node kinds,
  `Concept(id, labels, broader, narrower, related)` and `Collection(id, labels, members)`.
- `providers.dfy` (`Providers`): the specification functions and the `Provider` class.
  - `Resolve` specifies `get_by_id`. It follows the alias chain with `Follow`, then builds the node with `Materialize`.
  - `Answer` specifies `_do_query`.
  - The class methods do the work step by step, as the source does. `GetById`, `Build` and `AddAltLabels` fill in the intermediate `concept` dictionary (`Draft`), one alternative label per loop iteration, and pass it to `FromDict`. `DoQuery` fills in the request arguments and reassigns the item list.
  - Each method is proved equal to its specification function.
- `properties.dfy` (`ProviderProperties`): lemmas about these specifications.
  - Alias transparency, the 404 behaviour and the shape of built nodes.
  - Fuel monotonicity.
  - Queries: the ValueError cases, which items a scoped query keeps, and that answers keep the listing order.

Errors are values. `get_by_id` returns `Found(node)`, `NotFound` (the
source's `False`) or `Raised(error)` for an exception that escapes it.
`_do_query` returns `Ok(entries)` or `Err(error)`.

Alias chains (`term_type == "ND"`) are followed by recursion in the source,
with no bound of its own. The model gives each lookup a `fuel: nat` budget, one
unit per alias hop. When the budget runs out, the lookup raises `RecursionLimit`.
`ResolveFuelMonotone` shows that a lookup which did not run out of fuel gives
the same answer with any larger budget.

This version of `skosprovider_oe/providers.py` is smaller than the provider
its later tests exercise, and the model follows the code:

- `broader` is `[broader_term]`, taken verbatim. The code does not walk the broader chain, and it fills in no `member_of`.
- The code has no `base_url` / `thesaurus` options. It also has no `get_by_uri`, `get_top_concepts`, `get_top_display` or `get_children_display`.
- Nodes carry no notes, sources or matches.
- `get_by_id` returns skosprovider objects, not dictionaries. `skosprovider_oe/tests/test_providers.py:60` expects a dictionary.

## Model

| member | source | states |
|---|---|---|
| Providers.WithDefaultLanguage | skosprovider_oe/providers.py:19-22 | "default_language" is always present afterwards. It is "nl" only when the metadata lacked it, and otherwise keeps the given value. Every other entry is kept. |
| Providers.Endpoint | skosprovider_oe/providers.py:23-25 | The url is the typologie endpoint when none is given, and otherwise the given url verbatim. |
| Providers.Provider.constructor | skosprovider_oe/providers.py:19-25 | The new provider's metadata and url are those of `WithDefaultLanguage` and `Endpoint`. |
| Providers.FetchTerm | skosprovider_oe/providers.py:83-88 | Gives the record for a known id. For an unknown id it fails with `TermUnavailable(id)`, because the status code is never checked. |
| Providers.AltLabels | skosprovider_oe/providers.py:53-62 | Succeeds iff every alias id is known. It then gives one altLabel per alias, in order, with that alias's own language and term. Otherwise it fails on the first unknown alias. |
| Providers.Follow | skosprovider_oe/providers.py:27-34 | Follows `use` through "ND" records. An unknown id ends in `None` (404). A non-alias id ends at itself. Any record it ends at is known and is not an alias. An alias with a `use` target continues at that target with one unit of fuel less. An alias without `use` raises `KeyError("use")`. An alias reached with no fuel left raises `RecursionLimit`. |
| Providers.Materialize | skosprovider_oe/providers.py:35-65 | Succeeds iff all `use_for` aliases are known. Node id = record id. Concept iff `term_type == "PT"`. labels = one prefLabel from the record, then the alias altLabels, so 1 + \|use_for\| labels. `narrower_terms` goes to `narrower` for a Concept and to `members` for a Collection. `broader` = `[broader_term]`, `related` = `related_terms`. Absent fields give `[]`. |
| Providers.Resolve | skosprovider_oe/providers.py:27-65 | NotFound exactly when the alias chain reaches an unknown id. A found node was built from a known record that is not an alias. Only lookup errors are raised. |
| Providers.FromDict | skosprovider_oe/providers.py:67-81 | A Concept iff the dictionary's type is concept. Each list is the dictionary's entry when present, else `[]`. A Collection takes `members` and ignores `broader`, `narrower` and `related`. |
| Providers.Provider.GetById | skosprovider_oe/providers.py:27-34 | The imperative lookup (404, then alias recursion) returns exactly `Resolve(remote, id, fuel)`. |
| Providers.Provider.Build | skosprovider_oe/providers.py:35-65 | Filling in the dictionary field by field, with the `use_for` loop appending altLabels, gives exactly the node or error of `Materialize`. |
| Providers.Provider.AddAltLabels | skosprovider_oe/providers.py:53-62 | The loop succeeds iff every alias id is known. It then appends exactly the `AltLabels` of the ids to the dictionary's labels and changes nothing else. Otherwise it raises the error for the first unknown alias. |
| Providers.TypeFilter | skosprovider_oe/providers.py:98-104 | "PT" is requested unless the query asks for collections. "HR" and "NL" are requested unless it asks for concepts. "ND" is never requested. Any other type value leaves the default. |
| Providers.SearchTerm | skosprovider_oe/providers.py:105-106 | The `term` parameter is present exactly when the query has a label, and then it is that label. |
| Providers.Expand | skosprovider_oe/providers.py:133-138 | `False` (None) exactly when the remote has no subtree for the id. Otherwise it is the remote's subtree, verbatim. |
| Providers.ExpandConcept | skosprovider_oe/providers.py:130-131 | Always equals `Expand`. |
| Providers.ScopeMembers | skosprovider_oe/providers.py:118-121 | With depth "all" it is the collection's subtree. When the remote has none, it is `SubtreeUnavailable`, the `False` that `expand` gives. Otherwise it is the collection's direct members. |
| Providers.Restrict | skosprovider_oe/providers.py:122 | An item is kept iff it is listed and its id is a member. Each kept item occurs exactly as often as it is listed, and every other item occurs zero times (multiset counts). The result is never longer than the input. |
| Providers.Project | skosprovider_oe/providers.py:123-128 | One entry per item, in order, with `id` = item id and label = `omschrijving`. |
| Providers.Provider.DoQuery | skosprovider_oe/providers.py:96-128 | Building `args` step by step, fetching the listing and reassigning `items` gives exactly `Answer(remote, query, fuel)`. This covers a scope without an id (KeyError), and a missing subtree that raises only when some item is listed. |
| Providers.Provider.Find | skosprovider_oe/providers.py:90-91 | `find(query)` is the answer to that query. |
| Providers.Provider.GetAll | skosprovider_oe/providers.py:93-94 | `get_all()` is the answer to no query. |
| ProviderProperties.DefaultLanguageIdempotent | skosprovider_oe/providers.py:20-21 | Adding the default language a second time changes nothing. |
| ProviderProperties.NotFoundExactlyWhenMissing | skosprovider_oe/providers.py:28-31 | For an id whose record is not an alias, `get_by_id` is `False` exactly when the remote has no record. |
| ProviderProperties.AliasTransparency | skosprovider_oe/providers.py:33-34 | For an "ND" record with a `use` target, `get_by_id(id)` equals `get_by_id(use)`. |
| ProviderProperties.DescriptorLookup | skosprovider_oe/providers.py:35-65 | A non-alias record is found iff all of its aliases are known, and the node is the one built from that record. Otherwise the error is an unavailable alias. |
| ProviderProperties.FoundNodeShape | skosprovider_oe/providers.py:33-62 | Every node comes from a non-alias record and carries that record's id. It is a Concept iff that record is "PT". Its first label is its only prefLabel; all later labels are altLabels. |
| ProviderProperties.FollowFuelMonotone | skosprovider_oe/providers.py:33-34 | An alias chain that did not run out of fuel ends in the same place with more fuel. |
| ProviderProperties.ResolveFuelMonotone | skosprovider_oe/providers.py:27-34 | A lookup that did not run out of fuel gives the same answer with more fuel. |
| ProviderProperties.RestrictEmbeds | skosprovider_oe/providers.py:122 | The kept items are a subsequence of the listing, in listing order. |
| ProviderProperties.RestrictMonotone | skosprovider_oe/providers.py:118-122 | A larger membership list keeps every item a smaller one keeps, in the same order. |
| ProviderProperties.ProjectEmbeds | skosprovider_oe/providers.py:123-128 | Projecting to entries keeps one sequence a subsequence of another. |
| ProviderProperties.ProjectMembers | skosprovider_oe/providers.py:123-128 | An entry is in the projection iff it is the entry of some projected item. |
| ProviderProperties.ListedKindsMatchQuery | skosprovider_oe/providers.py:98-104 | A record whose type the filter admits builds into a Concept when concepts are asked for, and into a Collection when collections are asked for. |
| ProviderProperties.UnscopedAnswer | skosprovider_oe/providers.py:96-128 | Without a collection scope, the answer is the whole listing, projected. |
| ProviderProperties.GetAllListsEveryKind | skosprovider_oe/providers.py:93-98 | `get_all` requests the types HR, PT and NL with no search term, and projects everything listed. |
| ProviderProperties.UnexistingCollectionExactly | skosprovider_oe/providers.py:110-116 | A query raises the ValueError iff it is scoped to an id that is not found or that resolves to a Concept. |
| ProviderProperties.ScopeWithoutIdExactly | skosprovider_oe/providers.py:110-112 | A query fails with `KeyError("id")` iff its collection scope has no id. |
| ProviderProperties.ScopedAnswerMembers | skosprovider_oe/providers.py:110-128 | A query scoped to a collection succeeds iff its member list is available or nothing is listed. With a member list, its entries are exactly the listed items whose id is a member. Without one, an empty listing gives `[]`. |
| ProviderProperties.AnswerEmbedsListing | skosprovider_oe/providers.py:109-128 | Every answer is a subsequence of the projected listing, in listing order. |
| ProviderProperties.DeepScopeEmbedsDirectScope | skosprovider_oe/providers.py:118-122 | When a collection's subtree contains its direct members, the depth-"all" answer keeps every entry of the direct-members answer, in order. |

## Left out

- HTTP transport and JSON decoding (`requests.get`, `r.json()`). The remote is a `Remote` value. Transport errors other than a 404, and malformed JSON, are not modelled.
- The `VocabularyProvider` base class and its accessors `get_vocabulary_id` and `get_metadata`. These are library code; the model keeps the metadata in the `Provider.metadata` field.
- Metadata is modelled as `map<string, string>`, so non-string values such as `subject` lists are not represented.
- In the source, `__init__` updates the caller's metadata dictionary in place. The model stores the updated map as a new value, so this aliasing is not captured.
- Record fields the source always indexes (`id`, `term`, `language`, `term_type`) are required in `Term`. The KeyError a record without them would raise is not modelled.
- Ids are integers. The source formats any id into the url, and an id the service does not know is simply absent from the maps.
- Python's recursion limit is replaced by the `fuel` bound on alias hops. The exact depth at which Python raises RecursionError is not modelled.
- `FetchTerm`: the failure for an unknown alias is one `TermUnavailable` error. In the source, the exception's type depends on the body of the remote's 404 page.
- The source tests `not coll` before `isinstance(coll, Collection)`. The model takes skosprovider nodes to be always truthy.
- The listing endpoint is an arbitrary function of the request parameters. Whether the remote honours the type filter or the search term is not modelled.
- Not in this version of the source, so not modelled: `get_by_uri`, `get_top_concepts`, `get_top_display`, `get_children_display`, `member_of`, `superordinates`, `subordinate_arrays`, notes, sources, matches, `concept_scheme`, and building the url from `base_url` and `thesaurus`.
