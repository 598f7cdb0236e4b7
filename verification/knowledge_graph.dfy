/** The in-memory knowledge graph of the memory MCP server: a cache of
    named entities with observations and of typed relations between
    entity names. */
module KnowledgeGraph {
  import opened Wrappers
  import opened PyValues

  datatype Entity = Entity(name: string, entityType: string, observations: seq<string>, content: string)

  /** `Relation`; `from` stands for the `from_` key. */
  datatype Relation = Relation(from: string, to: string, relationType: string)

  datatype Graph = Graph(entities: seq<Entity>, relations: seq<Relation>)

  /** An `add_observations` request and its report. */
  datatype ObservationRequest = ObservationRequest(entityName: string, contents: seq<string>)
  datatype AddedObservations = AddedObservations(entityName: string, addedObservations: seq<string>)

  /** A `delete_observations` request. */
  datatype ObservationDeletion = ObservationDeletion(entityName: string, observations: seq<string>)

  predicate HasName(es: seq<Entity>, name: string) {
    exists e :: e in es && e.name == name
  }

  predicate SameTriple(a: Relation, b: Relation) {
    a.from == b.from && a.to == b.to && a.relationType == b.relationType
  }

  predicate HasTriple(rs: seq<Relation>, r: Relation) {
    exists x :: x in rs && SameTriple(x, r)
  }

  /** Every relation joins two entities of the graph. */
  predicate Closed(es: seq<Entity>, rs: seq<Relation>) {
    forall r :: r in rs ==> HasName(es, r.from) && HasName(es, r.to)
  }

  /** The candidates of `create_entities` whose name the cache lacked. */
  function NewEntities(cache: seq<Entity>, es: seq<Entity>): seq<Entity> {
    Filter((e: Entity) => !HasName(cache, e.name), es)
  }

  /** The candidates of `create_relations` whose triple the cache lacked. */
  function NewRelations(cache: seq<Relation>, rs: seq<Relation>): seq<Relation> {
    Filter((r: Relation) => !HasTriple(cache, r), rs)
  }

  /** The `next(...)` lookup: the first entity with the name. */
  function FirstNamed(es: seq<Entity>, name: string): (r: Option<nat>)
    ensures r.None? <==> !HasName(es, name)
    ensures r.Some? ==> (r.value < |es| && es[r.value].name == name &&
      forall j :: 0 <= j < r.value ==> es[j].name != name)
  {
    if es == [] then None
    else if es[0].name == name then Some(0)
    else
      match FirstNamed(es[1..], name)
      case None =>
        assert forall e :: e in es ==> e == es[0] || e in es[1..];
        None
      case Some(i) =>
        assert es[1..][i] == es[i + 1];
        Some(i + 1)
  }

  /** One request of `add_observations`: the contents the entity lacked
      are appended to it and reported; an unknown name raises. */
  function AddOne(es: seq<Entity>, o: ObservationRequest): Result<(seq<Entity>, AddedObservations)> {
    match FirstNamed(es, o.entityName)
    case None => Err(ValueError)
    case Some(i) =>
      var added := Filter((c: string) => c !in es[i].observations, o.contents);
      Ok((es[i := es[i].(observations := es[i].observations + added)], AddedObservations(o.entityName, added)))
  }

  /** The entities after the requests handled so far, and the reports or
      the error that stopped the loop (earlier requests stay applied). */
  datatype AddState = AddState(entities: seq<Entity>, result: Result<seq<AddedObservations>>)

  function AddAll(es: seq<Entity>, requests: seq<ObservationRequest>): AddState
    decreases |requests|
  {
    if requests == [] then AddState(es, Ok([]))
    else
      var prev := AddAll(es, requests[..|requests| - 1]);
      if prev.result.Err? then prev
      else
        match AddOne(prev.entities, requests[|requests| - 1])
        case Err(e) => AddState(prev.entities, Err(e))
        case Ok((next, report)) => AddState(next, Ok(prev.result.value + [report]))
  }

  /** One request of `delete_observations`: the listed observations leave
      the first entity with the name; an unknown name is ignored. */
  function DropOne(es: seq<Entity>, d: ObservationDeletion): seq<Entity> {
    match FirstNamed(es, d.entityName)
    case None => es
    case Some(i) =>
      es[i := es[i].(observations := Filter((o: string) => o !in d.observations, es[i].observations))]
  }

  function DropAll(es: seq<Entity>, deletions: seq<ObservationDeletion>): seq<Entity>
    decreases |deletions|
  {
    if deletions == [] then es
    else DropOne(DropAll(es, deletions[..|deletions| - 1]), deletions[|deletions| - 1])
  }

  /** The relations with both endpoints among `es`. */
  function Induced(es: seq<Entity>, rs: seq<Relation>): seq<Relation> {
    Filter((r: Relation) => HasName(es, r.from) && HasName(es, r.to), rs)
  }

  /** The `search_nodes` test, on the lowered query. */
  predicate Mentions(q: string, e: Entity) {
    IsSubstring(q, Lower(e.name)) || IsSubstring(q, Lower(e.entityType)) ||
    exists o :: o in e.observations && IsSubstring(q, Lower(o))
  }

  class KnowledgeGraphManager {
    var entities: seq<Entity>
    var relations: seq<Relation>

    constructor()
      ensures entities == [] && relations == []
    {
      entities := [];
      relations := [];
    }

    /** `load_graph` and `read_graph`. */
    function ReadGraph(): (g: Graph)
      reads this
      ensures g.entities == entities && g.relations == relations
    {
      Graph(entities, relations)
    }

    /** `save_graph` */
    method SaveGraph(g: Graph)
      modifies this
      ensures entities == g.entities && relations == g.relations
    {
      entities := g.entities;
      relations := g.relations;
    }

    /** `create_entities`: appends and returns the candidates whose name
        the cache lacked beforehand, in input order. */
    method CreateEntities(es: seq<Entity>) returns (added: seq<Entity>)
      modifies this
      ensures added == NewEntities(old(entities), es)
      ensures entities == old(entities) + added && relations == old(relations)
    {
      added := NewEntities(entities, es);
      entities := entities + added;
    }

    /** `create_relations`: appends and returns the candidates whose triple
        the cache lacked beforehand; existing relations stay as they are. */
    method CreateRelations(rs: seq<Relation>) returns (added: seq<Relation>)
      modifies this
      ensures added == NewRelations(old(relations), rs)
      ensures relations == old(relations) + added && entities == old(entities)
    {
      added := NewRelations(relations, rs);
      relations := relations + added;
    }

    /** `add_observations` */
    method AddObservations(requests: seq<ObservationRequest>) returns (r: Result<seq<AddedObservations>>)
      modifies this
      ensures AddAll(old(entities), requests) == AddState(entities, r)
      ensures relations == old(relations)
    {
      var results: seq<AddedObservations> := [];
      var i := 0;
      while i < |requests|
        invariant 0 <= i <= |requests| && relations == old(relations)
        invariant AddAll(old(entities), requests[..i]) == AddState(entities, Ok(results))
      {
        var obs := requests[i];
        assert requests[..i + 1][..i] == requests[..i] && requests[..i + 1][i] == obs;
        var entity := FirstNamed(entities, obs.entityName);
        if entity.None? {
          AddAllStopsAtError(old(entities), requests, i + 1);
          return Err(ValueError);
        }
        var k := entity.value;
        var current := entities[k].observations;
        var newObservations := Filter((c: string) => c !in current, obs.contents);
        entities := entities[k := entities[k].(observations := entities[k].observations + newObservations)];
        results := results + [AddedObservations(obs.entityName, newObservations)];
        i := i + 1;
      }
      assert requests[..i] == requests;
      r := Ok(results);
    }

    /** `delete_entities`: removes the named entities and every relation
        with an endpoint among the names. */
    method DeleteEntities(names: seq<string>)
      modifies this
      ensures entities == Filter((e: Entity) => e.name !in names, old(entities))
      ensures relations == Filter((r: Relation) => r.from !in names && r.to !in names, old(relations))
    {
      entities := Filter((e: Entity) => e.name !in names, entities);
      relations := Filter((r: Relation) => r.from !in names && r.to !in names, relations);
    }

    /** `delete_observations` */
    method DeleteObservations(deletions: seq<ObservationDeletion>)
      modifies this
      ensures entities == DropAll(old(entities), deletions) && relations == old(relations)
    {
      var i := 0;
      while i < |deletions|
        invariant 0 <= i <= |deletions| && relations == old(relations)
        invariant entities == DropAll(old(entities), deletions[..i])
      {
        var deletion := deletions[i];
        assert deletions[..i + 1][..i] == deletions[..i] && deletions[..i + 1][i] == deletion;
        var entity := FirstNamed(entities, deletion.entityName);
        if entity.Some? {
          var k := entity.value;
          var listed := deletion.observations;
          entities := entities[k := entities[k].(observations :=
            Filter((o: string) => o !in listed, entities[k].observations))];
        }
        i := i + 1;
      }
      assert deletions[..i] == deletions;
    }

    /** `delete_relations`: drops exactly the relations matching a listed
        triple; the others keep their order. */
    method DeleteRelations(rs: seq<Relation>)
      modifies this
      ensures forall r :: r in relations <==> r in old(relations) && !HasTriple(rs, r)
      ensures forall r :: multiset(relations)[r] == if HasTriple(rs, r) then 0 else multiset(old(relations))[r]
      ensures IsSubsequence(relations, old(relations)) && entities == old(entities)
    {
      FilterCounts((r: Relation) => !HasTriple(rs, r), relations);
      relations := Filter((r: Relation) => !HasTriple(rs, r), relations);
    }

    /** `search_nodes`: the entities whose name, type or some observation
        contains the query, ignoring case, and the relations among them. */
    function SearchNodes(query: string): (g: Graph)
      reads this
      ensures forall e :: e in g.entities <==> e in entities && Mentions(Lower(query), e)
      ensures forall r :: r in g.relations <==>
        r in relations && HasName(g.entities, r.from) && HasName(g.entities, r.to)
      ensures IsSubsequence(g.entities, entities) && IsSubsequence(g.relations, relations)
      ensures forall e :: multiset(g.entities)[e] == if Mentions(Lower(query), e) then multiset(entities)[e] else 0
      ensures forall r :: multiset(g.relations)[r] ==
                          if HasName(g.entities, r.from) && HasName(g.entities, r.to) then multiset(relations)[r] else 0
    {
      var q := Lower(query);
      var found := Filter((e: Entity) => Mentions(q, e), entities);
      FilterCounts((e: Entity) => Mentions(q, e), entities);
      FilterCounts((r: Relation) => HasName(found, r.from) && HasName(found, r.to), relations);
      Graph(found, Induced(found, relations))
    }

    /** `open_nodes`: the entities whose name is listed, and the relations
        among them. */
    function OpenNodes(names: seq<string>): (g: Graph)
      reads this
      ensures forall e :: e in g.entities <==> e in entities && e.name in names
      ensures forall r :: r in g.relations <==>
        r in relations && HasName(g.entities, r.from) && HasName(g.entities, r.to)
      ensures IsSubsequence(g.entities, entities) && IsSubsequence(g.relations, relations)
      ensures forall e :: multiset(g.entities)[e] == if e.name in names then multiset(entities)[e] else 0
      ensures forall r :: multiset(g.relations)[r] ==
                          if HasName(g.entities, r.from) && HasName(g.entities, r.to) then multiset(relations)[r] else 0
    {
      var found := Filter((e: Entity) => e.name in names, entities);
      FilterCounts((e: Entity) => e.name in names, entities);
      FilterCounts((r: Relation) => HasName(found, r.from) && HasName(found, r.to), relations);
      Graph(found, Induced(found, relations))
    }
  }

  // -----------------------------------------------------------------------
  // What the operations promise

  /** `create_entities` returns exactly the candidates whose name the cache
      lacked, in input order. */
  lemma NewEntitiesExactly(cache: seq<Entity>, es: seq<Entity>)
    ensures forall e :: e in NewEntities(cache, es) <==> e in es && !HasName(cache, e.name)
    ensures IsSubsequence(NewEntities(cache, es), es)
  {
  }

  /** Two candidates with a fresh name in the same batch are both added:
      the batch is checked against the cache only. */
  lemma BatchDuplicatesKept(e: Entity)
    ensures NewEntities([], [e, e]) == [e, e]
  {
    assert [e, e][1..] == [e];
    assert [e][1..] == [];
  }

  /** Creating the same entities again adds nothing. */
  lemma CreateEntitiesTwice(cache: seq<Entity>, es: seq<Entity>)
    ensures NewEntities(cache + NewEntities(cache, es), es) == []
  {
    var after := cache + NewEntities(cache, es);
    forall x | x in es ensures HasName(after, x.name) {
      if HasName(cache, x.name) {
        var y :| y in cache && y.name == x.name;
        assert y in after;
      } else {
        assert x in after;
      }
    }
    FilterNone((e: Entity) => !HasName(after, e.name), es);
  }

  /** `create_relations` adds only triples the cache lacked, and creating
      the same relations again adds nothing. */
  lemma CreateRelationsTwice(cache: seq<Relation>, rs: seq<Relation>)
    ensures forall r :: r in NewRelations(cache, rs) ==> r in rs && !HasTriple(cache, r)
    ensures NewRelations(cache + NewRelations(cache, rs), rs) == []
  {
    var after := cache + NewRelations(cache, rs);
    forall x | x in rs ensures HasTriple(after, x) {
      if HasTriple(cache, x) {
        var y :| y in cache && SameTriple(y, x);
        assert y in after;
      } else {
        assert x in after && SameTriple(x, x);
      }
    }
    FilterNone((r: Relation) => !HasTriple(after, r), rs);
  }

  /** One request of `add_observations`: an unknown name raises
      ValueError; otherwise only the named entity changes, gaining exactly
      the contents it lacked, which are reported, and afterwards holds
      every requested content. */
  lemma AddOneEffect(es: seq<Entity>, o: ObservationRequest)
    ensures AddOne(es, o).Err? <==> !HasName(es, o.entityName)
    ensures AddOne(es, o).Err? ==> AddOne(es, o).error == ValueError
    ensures AddOne(es, o).Ok? ==>
      var (next, report) := AddOne(es, o).value;
      var i := FirstNamed(es, o.entityName).value;
      |next| == |es| && report.entityName == o.entityName &&
      (forall j :: 0 <= j < |es| && j != i ==> next[j] == es[j]) &&
      next[i] == es[i].(observations := es[i].observations + report.addedObservations) &&
      (forall c :: c in report.addedObservations <==> c in o.contents && c !in es[i].observations) &&
      (forall c :: c in o.contents ==> c in next[i].observations)
  {
  }

  lemma AddOneErrIff(es: seq<Entity>, o: ObservationRequest)
    ensures AddOne(es, o).Err? <==> !HasName(es, o.entityName)
  {
  }

  /** Repeating a request adds nothing and changes nothing. */
  lemma AddOneTwice(es: seq<Entity>, o: ObservationRequest)
    requires AddOne(es, o).Ok?
    ensures var next := AddOne(es, o).value.0;
      AddOne(next, o) == Ok((next, AddedObservations(o.entityName, [])))
  {
    AddOneEffect(es, o);
    var i := FirstNamed(es, o.entityName).value;
    var next := AddOne(es, o).value.0;
    assert next[i].name == o.entityName;
    assert FirstNamed(next, o.entityName) == Some(i);
    FilterNone((c: string) => c !in next[i].observations, o.contents);
    assert next[i].observations + [] == next[i].observations;
    assert next[i := next[i].(observations := next[i].observations + [])] == next;
  }

  /** Requests never rename entities. */
  lemma {:induction false} AddAllKeepsNames(es: seq<Entity>, requests: seq<ObservationRequest>)
    ensures var st := AddAll(es, requests);
      |st.entities| == |es| && forall j :: 0 <= j < |es| ==> st.entities[j].name == es[j].name
    decreases |requests|
  {
    if requests != [] {
      AddAllKeepsNames(es, requests[..|requests| - 1]);
    }
  }

  lemma SameNamesSameLookup(es: seq<Entity>, fs: seq<Entity>, name: string)
    requires |fs| == |es| && forall j :: 0 <= j < |es| ==> fs[j].name == es[j].name
    ensures HasName(fs, name) <==> HasName(es, name)
  {
    if HasName(es, name) {
      var i := FirstNamed(es, name).value;
      assert fs[i] in fs;
    }
    if HasName(fs, name) {
      var i := FirstNamed(fs, name).value;
      assert es[i] in es;
    }
  }

  /** Every request names an entity of `es`. */
  predicate AllNamed(es: seq<Entity>, requests: seq<ObservationRequest>) {
    forall k :: 0 <= k < |requests| ==> HasName(es, requests[k].entityName)
  }

  lemma AllNamedSnoc(es: seq<Entity>, requests: seq<ObservationRequest>)
    requires requests != []
    ensures AllNamed(es, requests) <==>
      AllNamed(es, requests[..|requests| - 1]) && HasName(es, requests[|requests| - 1].entityName)
  {
    var init := requests[..|requests| - 1];
    assert forall k :: 0 <= k < |init| ==> init[k] == requests[k];
  }

  /** `add_observations` succeeds exactly when every request names an
      existing entity. */
  lemma {:induction false} AddAllOkIff(es: seq<Entity>, requests: seq<ObservationRequest>)
    ensures AddAll(es, requests).result.Ok? <==> AllNamed(es, requests)
    decreases |requests|
  {
    if requests != [] {
      var n := |requests| - 1;
      var init := requests[..n];
      var last := requests[n];
      var prev := AddAll(es, init);
      AddAllOkIff(es, init);
      AllNamedSnoc(es, requests);
      if prev.result.Ok? {
        AddAllKeepsNames(es, init);
        SameNamesSameLookup(es, prev.entities, last.entityName);
        AddOneErrIff(prev.entities, last);
        assert AddAll(es, requests).result.Ok? <==> AddOne(prev.entities, last).Ok?;
      } else {
        assert AddAll(es, requests) == prev;
      }
    }
  }

  /** Once a request fails, the later ones change nothing. */
  lemma {:induction false} AddAllStopsAtError(es: seq<Entity>, requests: seq<ObservationRequest>, n: nat)
    requires n <= |requests| && AddAll(es, requests[..n]).result.Err?
    ensures AddAll(es, requests) == AddAll(es, requests[..n])
    decreases |requests| - n
  {
    if n < |requests| {
      assert requests[..n + 1][..n] == requests[..n];
      AddAllStopsAtError(es, requests, n + 1);
    } else {
      assert requests[..n] == requests;
    }
  }

  /** One request of `delete_observations`: the named entity keeps exactly
      its observations that were not listed; every other entity, and the
      whole graph when the name is unknown, is unchanged. */
  lemma DropOneEffect(es: seq<Entity>, d: ObservationDeletion)
    ensures |DropOne(es, d)| == |es|
    ensures !HasName(es, d.entityName) ==> DropOne(es, d) == es
    ensures HasName(es, d.entityName) ==>
      var i := FirstNamed(es, d.entityName).value;
      (forall j :: 0 <= j < |es| && j != i ==> DropOne(es, d)[j] == es[j]) &&
      DropOne(es, d)[i].name == es[i].name && DropOne(es, d)[i].entityType == es[i].entityType &&
      (forall o :: o in DropOne(es, d)[i].observations <==> o in es[i].observations && o !in d.observations)
  {
  }

  /** After `delete_entities`, no relation mentions a deleted name, and a
      graph whose relations joined existing entities still does. */
  lemma DeleteEntitiesKeepsClosed(es: seq<Entity>, rs: seq<Relation>, names: seq<string>)
    requires Closed(es, rs)
    ensures var es' := Filter((e: Entity) => e.name !in names, es);
      var rs' := Filter((r: Relation) => r.from !in names && r.to !in names, rs);
      Closed(es', rs') && (forall r :: r in rs' ==> r.from !in names && r.to !in names) &&
      forall e :: e in es' ==> e.name !in names
  {
    var es' := Filter((e: Entity) => e.name !in names, es);
    var rs' := Filter((r: Relation) => r.from !in names && r.to !in names, rs);
    forall r | r in rs' ensures HasName(es', r.from) && HasName(es', r.to) {
      var a :| a in es && a.name == r.from;
      var b :| b in es && b.name == r.to;
      assert a in es' && b in es';
    }
  }

  /** The graphs `search_nodes` and `open_nodes` return are closed: every
      relation joins two returned entities. */
  lemma InducedIsClosed(es: seq<Entity>, rs: seq<Relation>)
    ensures Closed(es, Induced(es, rs))
  {
  }
}
