/** What the provider promises about the nodes it builds and the queries it
    answers, stated over the specification functions of `Providers`. */
module ProviderProperties {
  import opened Thesaurus
  import opened Skos
  import opened Providers

  // ------------------------------------------------------------------------
  // Construction

  /** Constructing a provider twice over the same metadata adds nothing more. */
  lemma DefaultLanguageIdempotent(metadata: map<string, string>)
    ensures WithDefaultLanguage(WithDefaultLanguage(metadata)) == WithDefaultLanguage(metadata)
  {
  }

  // ------------------------------------------------------------------------
  // get_by_id

  /** For an id whose record is not an alias, `get_by_id` answers `False`
      exactly when the remote has no record for it. */
  lemma NotFoundExactlyWhenMissing(remote: Remote, id: Id, fuel: nat)
    requires id in remote.terms ==> remote.terms[id].termType != ND
    ensures Resolve(remote, id, fuel).NotFound? <==> id !in remote.terms
  {
  }

  /** An alias is transparent: looking it up is looking up its `use` target. */
  lemma AliasTransparency(remote: Remote, id: Id, fuel: nat)
    requires id in remote.terms && remote.terms[id].termType == ND
    requires remote.terms[id].use.Some? && fuel > 0
    ensures Resolve(remote, id, fuel) == Resolve(remote, remote.terms[id].use.value, fuel - 1)
  {
  }

  /** A non-alias record is built into a node exactly when all of its
      `use_for` aliases are available; the node is the one built from it. */
  lemma DescriptorLookup(remote: Remote, id: Id, fuel: nat)
    requires id in remote.terms && remote.terms[id].termType != ND
    ensures var t := remote.terms[id];
            Resolve(remote, id, fuel).Found? <==>
              forall i :: 0 <= i < |OrEmpty(t.useFor)| ==> OrEmpty(t.useFor)[i] in remote.terms
    ensures Resolve(remote, id, fuel).Found? ==>
              Resolve(remote, id, fuel).node == Materialize(remote.terms, remote.terms[id]).value
    ensures Resolve(remote, id, fuel).Raised? ==> Resolve(remote, id, fuel).error.TermUnavailable?
  {
  }

  /** Every node `get_by_id` hands out comes from a non-alias record `k`: it
      carries that record's id, it is a Concept exactly when the record is
      "PT", and its labels are one prefLabel followed by one altLabel per
      `use_for` alias. */
  lemma FoundNodeShape(remote: Remote, id: Id, fuel: nat)
    requires Resolve(remote, id, fuel).Found?
    ensures var n := Resolve(remote, id, fuel).node;
            exists k :: k in remote.terms && remote.terms[k].termType != ND
                     && n.id == remote.terms[k].id
                     && (n.Concept? <==> remote.terms[k].termType == PT)
                     && |n.labels| == 1 + |OrEmpty(remote.terms[k].useFor)|
    ensures var n := Resolve(remote, id, fuel).node;
            |n.labels| >= 1 && n.labels[0].labelType == PrefLabel
            && forall i :: 1 <= i < |n.labels| ==> n.labels[i].labelType == AltLabel
  {
    var n := Resolve(remote, id, fuel).node;
    var k :| k in remote.terms && remote.terms[k].termType != ND
             && Materialize(remote.terms, remote.terms[k]) == Ok(n);
    var ids := OrEmpty(remote.terms[k].useFor);
    forall i | 1 <= i < |n.labels|
      ensures n.labels[i].labelType == AltLabel
    {
      assert n.labels[(i - 1) + 1] == AltLabelOf(remote.terms[ids[i - 1]]);
    }
  }

  /** Fuel only matters when it runs out: with more of it the alias chain ends
      where it ended before. */
  lemma {:induction false} FollowFuelMonotone(terms: map<Id, Term>, id: Id, f: nat, g: nat)
    requires f <= g
    requires Follow(terms, id, f) != Err(RecursionLimit)
    ensures Follow(terms, id, g) == Follow(terms, id, f)
    decreases f
  {
    if id in terms && terms[id].termType == ND && terms[id].use.Some? {
      assert f > 0;
      FollowFuelMonotone(terms, terms[id].use.value, f - 1, g - 1);
    }
  }

  /** A lookup that did not run out of fuel gives the same answer with more. */
  lemma ResolveFuelMonotone(remote: Remote, id: Id, f: nat, g: nat)
    requires f <= g
    requires Resolve(remote, id, f) != Raised(RecursionLimit)
    ensures Resolve(remote, id, g) == Resolve(remote, id, f)
  {
    FollowFuelMonotone(remote.terms, id, f, g);
  }

  // ------------------------------------------------------------------------
  // _do_query

  /** `xs` is `ys` with some elements left out, the order kept. */
  predicate Embeds<T(==)>(xs: seq<T>, ys: seq<T>)
    decreases |ys|
  {
    if xs == [] then true
    else if ys == [] then false
    else (xs[0] == ys[0] && Embeds(xs[1..], ys[1..])) || Embeds(xs, ys[1..])
  }

  lemma {:induction false} EmbedsReflexive<T>(xs: seq<T>)
    ensures Embeds(xs, xs)
    decreases |xs|
  {
    if xs != [] {
      EmbedsReflexive(xs[1..]);
    }
  }

  /** Restricting to a collection keeps the listed order. */
  lemma {:induction false} RestrictEmbeds(items: seq<Item>, members: seq<Id>)
    ensures Embeds(Restrict(items, members), items)
    decreases |items|
  {
    if items != [] {
      var rest := Restrict(items[1..], members);
      RestrictEmbeds(items[1..], members);
      if items[0].id in members {
        assert Restrict(items, members) == [items[0]] + rest;
        assert ([items[0]] + rest)[1..] == rest;
      } else {
        assert Restrict(items, members) == rest;
      }
    }
  }

  /** A larger membership list keeps every item a smaller one keeps, in order. */
  lemma {:induction false} RestrictMonotone(items: seq<Item>, small: seq<Id>, large: seq<Id>)
    requires forall m :: m in small ==> m in large
    ensures Embeds(Restrict(items, small), Restrict(items, large))
    decreases |items|
  {
    if items != [] {
      var x := items[0];
      var restSmall := Restrict(items[1..], small);
      var restLarge := Restrict(items[1..], large);
      RestrictMonotone(items[1..], small, large);
      if x.id in small {
        assert Restrict(items, small) == [x] + restSmall;
        assert Restrict(items, large) == [x] + restLarge;
        assert ([x] + restSmall)[1..] == restSmall;
        assert ([x] + restLarge)[1..] == restLarge;
      } else if x.id in large {
        assert Restrict(items, small) == restSmall;
        assert Restrict(items, large) == [x] + restLarge;
        assert ([x] + restLarge)[1..] == restLarge;
      } else {
        assert Restrict(items, small) == restSmall;
        assert Restrict(items, large) == restLarge;
      }
    }
  }

  /** Projecting to `{id, label}` entries keeps a selection a selection. */
  lemma {:induction false} ProjectEmbeds(xs: seq<Item>, ys: seq<Item>)
    requires Embeds(xs, ys)
    ensures Embeds(Project(xs), Project(ys))
    decreases |ys|
  {
    if xs != [] {
      if xs[0] == ys[0] && Embeds(xs[1..], ys[1..]) {
        ProjectEmbeds(xs[1..], ys[1..]);
        assert Project(xs)[1..] == Project(xs[1..]);
        assert Project(ys)[1..] == Project(ys[1..]);
      } else {
        ProjectEmbeds(xs, ys[1..]);
        assert Project(ys)[1..] == Project(ys[1..]);
      }
    }
  }

  /** An entry of a projection is the entry of some projected item. */
  lemma ProjectMembers(items: seq<Item>, e: Entry)
    ensures e in Project(items) <==> exists x :: x in items && e == EntryOf(x)
  {
    if e in Project(items) {
      var i :| 0 <= i < |Project(items)| && Project(items)[i] == e;
      assert items[i] in items;
    }
    if x :| x in items && e == EntryOf(x) {
      var i :| 0 <= i < |items| && items[i] == x;
      assert Project(items)[i] == e;
    }
  }

  /** The type filter admits only records that build into the kind asked for. */
  lemma ListedKindsMatchQuery(terms: map<Id, Term>, query: Option<Query>, t: Term)
    requires t.termType in TypeFilter(query)
    requires Materialize(terms, t).Ok?
    ensures AsksFor(query, ConceptType) ==> Materialize(terms, t).value.Concept?
    ensures AsksFor(query, CollectionType) ==> Materialize(terms, t).value.Collection?
  {
  }

  /** Without a collection scope the answer is the whole listing, projected. */
  lemma UnscopedAnswer(remote: Remote, query: Option<Query>, fuel: nat)
    requires !Scoped(query)
    ensures Answer(remote, query, fuel) == Ok(Project(Listed(remote, query)))
  {
  }

  /** `get_all` lists every collection and concept, with no search term. */
  lemma GetAllListsEveryKind(remote: Remote, fuel: nat)
    ensures Answer(remote, None, fuel) == Ok(Project(remote.listing([HR, PT, NL], None)))
  {
  }

  /** A scoped query fails with the ValueError exactly when the scope is
      unknown to the remote or is a concept. */
  lemma UnexistingCollectionExactly(remote: Remote, query: Query, fuel: nat)
    ensures Answer(remote, Some(query), fuel) == Err(UnexistingCollection) <==>
              query.collection.Some? && query.collection.value.id.Some?
              && var l := Resolve(remote, query.collection.value.id.value, fuel);
                 l.NotFound? || (l.Found? && l.node.Concept?)
  {
  }

  /** A scope without an id fails with KeyError("id"), and nothing else does. */
  lemma ScopeWithoutIdExactly(remote: Remote, query: Query, fuel: nat)
    ensures Answer(remote, Some(query), fuel) == Err(KeyError("id")) <==>
              query.collection.Some? && query.collection.value.id.None?
  {
  }

  /** A query scoped to a collection answers exactly the listed items whose
      id is among the scope's members (the subtree for depth "all", the
      direct members otherwise). */
  lemma ScopedAnswerMembers(remote: Remote, query: Query, fuel: nat)
    requires query.collection.Some? && query.collection.value.id.Some?
    requires var l := Resolve(remote, query.collection.value.id.value, fuel); l.Found? && l.node.Collection?
    ensures var coll := Resolve(remote, query.collection.value.id.value, fuel).node;
            var members := ScopeMembers(remote, coll, query.collection.value.depth);
            Answer(remote, Some(query), fuel).Ok? <==> members.Ok? || Listed(remote, Some(query)) == []
    ensures var coll := Resolve(remote, query.collection.value.id.value, fuel).node;
            var members := ScopeMembers(remote, coll, query.collection.value.depth);
            var answer := Answer(remote, Some(query), fuel);
            answer.Ok? && members.Ok? ==> forall e :: e in answer.value <==>
              exists x :: x in Listed(remote, Some(query)) && x.id in members.value && e == EntryOf(x)
    ensures var coll := Resolve(remote, query.collection.value.id.value, fuel).node;
            var members := ScopeMembers(remote, coll, query.collection.value.depth);
            members.Err? && Listed(remote, Some(query)) == [] ==> Answer(remote, Some(query), fuel) == Ok([])
  {
    var coll := Resolve(remote, query.collection.value.id.value, fuel).node;
    var members := ScopeMembers(remote, coll, query.collection.value.depth);
    var answer := Answer(remote, Some(query), fuel);
    if answer.Ok? && members.Ok? {
      var kept := Restrict(Listed(remote, Some(query)), members.value);
      assert answer.value == Project(kept);
      forall e
        ensures e in answer.value <==>
          exists x :: x in Listed(remote, Some(query)) && x.id in members.value && e == EntryOf(x)
      {
        ProjectMembers(kept, e);
      }
    }
  }

  /** Every answer is a selection of the projected listing, in listing order. */
  lemma AnswerEmbedsListing(remote: Remote, query: Option<Query>, fuel: nat)
    requires Answer(remote, query, fuel).Ok?
    ensures Embeds(Answer(remote, query, fuel).value, Project(Listed(remote, query)))
  {
    var items := Listed(remote, query);
    if !Scoped(query) {
      EmbedsReflexive(Project(items));
    } else {
      var scope := query.value.collection.value;
      var coll := Resolve(remote, scope.id.value, fuel).node;
      var members := ScopeMembers(remote, coll, scope.depth);
      if members.Ok? {
        RestrictEmbeds(items, members.value);
        ProjectEmbeds(Restrict(items, members.value), items);
      }
    }
  }

  /** When the remote's subtree of a collection contains its direct members,
      the depth-"all" answer keeps every entry of the direct-members answer,
      in the same order. */
  lemma DeepScopeEmbedsDirectScope(remote: Remote, query: Query, fuel: nat)
    requires query.collection.Some? && query.collection.value.id.Some?
    requires var l := Resolve(remote, query.collection.value.id.value, fuel);
             l.Found? && l.node.Collection? && l.node.id in remote.subtrees
             && forall m :: m in l.node.members ==> m in remote.subtrees[l.node.id]
    ensures var scope := query.collection.value;
            var direct := Answer(remote, Some(query.(collection := Some(scope.(depth := None)))), fuel);
            var deep := Answer(remote, Some(query.(collection := Some(scope.(depth := Some(DepthAll))))), fuel);
            direct.Ok? && deep.Ok? && Embeds(direct.value, deep.value)
  {
    var scope := query.collection.value;
    var coll := Resolve(remote, scope.id.value, fuel).node;
    var directQuery := Some(query.(collection := Some(scope.(depth := None))));
    var deepQuery := Some(query.(collection := Some(scope.(depth := Some(DepthAll)))));
    assert Listed(remote, directQuery) == Listed(remote, deepQuery);
    var items := Listed(remote, deepQuery);
    assert ScopeMembers(remote, coll, None) == Ok(coll.members);
    assert ScopeMembers(remote, coll, Some(DepthAll)) == Ok(remote.subtrees[coll.id]);
    assert Answer(remote, directQuery, fuel) == Ok(Project(Restrict(items, coll.members)));
    assert Answer(remote, deepQuery, fuel) == Ok(Project(Restrict(items, remote.subtrees[coll.id])));
    RestrictMonotone(items, coll.members, remote.subtrees[coll.id]);
    ProjectEmbeds(Restrict(items, coll.members), Restrict(items, remote.subtrees[coll.id]));
  }
}
