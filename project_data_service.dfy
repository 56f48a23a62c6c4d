/** The ProjectDataService contract of the external-system import: a service
    bound to one data key brings the IDE project in line with a collection of
    data nodes. For every node the corresponding project entity ends up with
    the node's state: an entity already in that state is left as it is, one in
    another state is reset, a missing one is created. Several services may be
    registered for one key; all are called, smaller Order first, and a later
    one finds the data already imported and does nothing.

    The project is a map from entity identity to entity; each entity carries
    a revision that changes whenever its state is written, so "left as it is"
    is observable. The contract is a predicate on the project before and
    after an import, stated for any implementation; ReferenceDataService is
    one implementation proved to honour it. */
module ProjectDataService {

  /** Key<T>: the identity of a category of project data. */
  type Key = string

  /** The identity of the project entity a data node corresponds to. */
  type EntityId = string

  /** The state of an entity, as the external system describes it. */
  type State = string

  /** DataNode<T>: one unit of external data, with its key, the entity it
      corresponds to and the state it prescribes. */
  datatype DataNode = DataNode(key: Key, entity: EntityId, state: State)

  /** A live project entity: its state and a revision bumped on every write. */
  datatype Entity = Entity(state: State, revision: nat)

  type Entities = map<EntityId, Entity>

  /** The live project model. */
  class Project {
    var entities: Entities
    /** The services whose `importData` ran against this project, in call
        order: the observable trace of which services the platform called. */
    var importLog: seq<ReferenceDataService>

    constructor (entities: Entities)
      ensures this.entities == entities && importLog == []
    {
      this.entities := entities;
      importLog := [];
    }
  }

  /** Some node of `nodes` corresponds to entity `e`. */
  predicate Addresses(nodes: seq<DataNode>, e: EntityId)
  {
    exists i :: 0 <= i < |nodes| && nodes[i].entity == e
  }

  /** No two nodes prescribe different states for one entity (otherwise no
      import can leave both present). */
  predicate Consistent(nodes: seq<DataNode>)
  {
    forall i, j :: 0 <= i < |nodes| && 0 <= j < |nodes| && nodes[i].entity == nodes[j].entity
      ==> nodes[i].state == nodes[j].state
  }

  /** After the import every node's entity exists in the node's state. This
      covers the reset of an entity in another state and the creation of a
      missing one. */
  ghost predicate NodesPresent(nodes: seq<DataNode>, after: Entities)
  {
    forall i :: 0 <= i < |nodes| ==>
      nodes[i].entity in after && after[nodes[i].entity].state == nodes[i].state
  }

  /** An entity that already had its node's state is not touched. */
  ghost predicate CurrentLeftAsIs(before: Entities, nodes: seq<DataNode>, after: Entities)
  {
    forall i :: 0 <= i < |nodes| && nodes[i].entity in before && before[nodes[i].entity].state == nodes[i].state
      ==> nodes[i].entity in after && after[nodes[i].entity] == before[nodes[i].entity]
  }

  /** Entities no node corresponds to are neither changed nor created. */
  ghost predicate OthersUnchanged(before: Entities, nodes: seq<DataNode>, after: Entities)
  {
    && (forall e :: e in before && !Addresses(nodes, e) ==> e in after && after[e] == before[e])
    && (forall e :: e in after ==> e in before || Addresses(nodes, e))
  }

  /** The documented contract of `importData`, for any implementation. */
  ghost predicate ImportContract(before: Entities, nodes: seq<DataNode>, after: Entities)
  {
    NodesPresent(nodes, after) && CurrentLeftAsIs(before, nodes, after) && OthersUnchanged(before, nodes, after)
  }

  /** Importing into a project that already reflects the nodes is a no-op:
      whatever implementation honours the contract, a second import of the
      same nodes leaves the project exactly as the first left it. */
  lemma ImportTwiceIsImportOnce(p0: Entities, nodes: seq<DataNode>, p1: Entities, p2: Entities)
    requires ImportContract(p0, nodes, p1)
    requires ImportContract(p1, nodes, p2)
    ensures p2 == p1
  {
  }

  /** Several services for one key, each honouring the contract and each
      called on the project the previous one left: every service after the
      first finds the data imported and changes nothing. */
  lemma {:induction false} LaterServicesAreNoOps(states: seq<Entities>, nodes: seq<DataNode>)
    requires |states| >= 2
    requires forall k :: 0 <= k < |states| - 1 ==> ImportContract(states[k], nodes, states[k + 1])
    ensures forall k :: 1 <= k < |states| ==> states[k] == states[1]
  {
    if |states| > 2 {
      var init := states[..|states| - 1];
      LaterServicesAreNoOps(init, nodes);
      var n := |states| - 1;
      assert ImportContract(states[n - 2], nodes, states[n - 1]);
      ImportTwiceIsImportOnce(states[n - 2], nodes, states[n - 1], states[n]);
      assert states[n - 1] == init[n - 1] == init[1] == states[1];
    }
  }

  /** The reference import of one node. */
  function ImportNode(p: Entities, node: DataNode): Entities
  {
    if node.entity !in p then p[node.entity := Entity(node.state, 0)]
    else if p[node.entity].state == node.state then p
    else p[node.entity := Entity(node.state, p[node.entity].revision + 1)]
  }

  /** The reference import of a batch: node after node. */
  function ImportNodes(p: Entities, nodes: seq<DataNode>): Entities
  {
    if nodes == [] then p
    else ImportNode(ImportNodes(p, nodes[..|nodes| - 1]), nodes[|nodes| - 1])
  }

  lemma ConsistentInit(nodes: seq<DataNode>)
    requires nodes != [] && Consistent(nodes)
    ensures Consistent(nodes[..|nodes| - 1])
  {
    var init := nodes[..|nodes| - 1];
    forall i, j | 0 <= i < |init| && 0 <= j < |init| && init[i].entity == init[j].entity
      ensures init[i].state == init[j].state
    {
      assert init[i] == nodes[i] && init[j] == nodes[j];
    }
  }

  lemma AddressesInit(nodes: seq<DataNode>)
    requires nodes != []
    ensures forall e :: Addresses(nodes, e) <==> Addresses(nodes[..|nodes| - 1], e) || nodes[|nodes| - 1].entity == e
  {
    var init := nodes[..|nodes| - 1];
    forall e ensures Addresses(nodes, e) <==> Addresses(init, e) || nodes[|nodes| - 1].entity == e {
      if Addresses(init, e) {
        var i :| 0 <= i < |init| && init[i].entity == e;
        assert nodes[i] == init[i];
      }
      if Addresses(nodes, e) {
        var i :| 0 <= i < |nodes| && nodes[i].entity == e;
        if i < |init| { assert init[i] == nodes[i]; }
      }
    }
  }

  /** The reference import honours the contract on every consistent batch. */
  lemma {:induction false} ImportNodesHonoursContract(p: Entities, nodes: seq<DataNode>)
    requires Consistent(nodes)
    ensures ImportContract(p, nodes, ImportNodes(p, nodes))
  {
    if nodes != [] {
      var init := nodes[..|nodes| - 1];
      var last := nodes[|nodes| - 1];
      ConsistentInit(nodes);
      ImportNodesHonoursContract(p, init);
      var q := ImportNodes(p, init);
      var after := ImportNode(q, last);
      assert after == ImportNodes(p, nodes);
      AddressesInit(nodes);
      // Every node's entity is present in its state.
      forall i | 0 <= i < |nodes|
        ensures nodes[i].entity in after && after[nodes[i].entity].state == nodes[i].state
      {
        if i < |init| {
          assert nodes[i] == init[i];
          if nodes[i].entity == last.entity {
            assert nodes[i].state == last.state;
          }
        }
      }
      // Entities already in their node's state are left as they are.
      forall i | 0 <= i < |nodes| && nodes[i].entity in p && p[nodes[i].entity].state == nodes[i].state
        ensures nodes[i].entity in after && after[nodes[i].entity] == p[nodes[i].entity]
      {
        var e := nodes[i].entity;
        if Addresses(init, e) {
          var j :| 0 <= j < |init| && init[j].entity == e;
          assert init[j] == nodes[j];
          assert q[e] == p[e];
        } else {
          assert q[e] == p[e];
        }
        if e == last.entity {
          assert nodes[|nodes| - 1] == last;
        }
      }
    }
  }

  /** With a consistent batch, importing twice gives what importing once
      gives, revisions included. */
  lemma ImportNodesIdempotent(p: Entities, nodes: seq<DataNode>)
    requires Consistent(nodes)
    ensures ImportNodes(ImportNodes(p, nodes), nodes) == ImportNodes(p, nodes)
  {
    ImportNodesHonoursContract(p, nodes);
    ImportNodesHonoursContract(ImportNodes(p, nodes), nodes);
    ImportTwiceIsImportOnce(p, nodes, ImportNodes(p, nodes), ImportNodes(ImportNodes(p, nodes), nodes));
  }

  /** A reference implementation of ProjectDataService for one key. `order`
      is the value of its Order annotation. */
  class ReferenceDataService {
    const name: string
    const key: Key
    const order: int

    constructor (name: string, key: Key, order: int)
      ensures this.name == name && this.key == key && this.order == order
    {
      this.name := name;
      this.key := key;
      this.order := order;
    }

    /** `getTargetDataKey()`: the one key whose data this service handles. */
    function TargetDataKey(): (k: Key)
      ensures k == key
    {
      key
    }

    /** `importData(toImport, project, synchronous)`: node after node, create
        a missing entity, reset one in another state, leave a current one.
        `synchronous` is passed through without effect. */
    method ImportData(toImport: seq<DataNode>, project: Project, synchronous: bool)
      requires forall i :: 0 <= i < |toImport| ==> toImport[i].key == TargetDataKey()
      modifies project
      ensures project.entities == ImportNodes(old(project.entities), toImport)
      ensures Consistent(toImport) ==> ImportContract(old(project.entities), toImport, project.entities)
      ensures project.importLog == old(project.importLog) + [this]
    {
      project.importLog := project.importLog + [this];
      ghost var before := project.entities;
      for i := 0 to |toImport|
        invariant project.entities == ImportNodes(before, toImport[..i])
        invariant project.importLog == old(project.importLog) + [this]
      {
        assert toImport[..i + 1][..i] == toImport[..i];
        var node := toImport[i];
        if node.entity !in project.entities {
          project.entities := project.entities[node.entity := Entity(node.state, 0)];
        } else if project.entities[node.entity].state != node.state {
          var revision := project.entities[node.entity].revision;
          project.entities := project.entities[node.entity := Entity(node.state, revision + 1)];
        }
      }
      assert toImport[..|toImport|] == toImport;
      if Consistent(toImport) {
        ImportNodesHonoursContract(before, toImport);
      }
    }

    /** `removeData(toRemove, project, synchronous)`: the source documents no
        contract; this implementation removes the nodes' entities, leaves the
        others and is a no-op for entities already absent. */
    method RemoveData(toRemove: seq<DataNode>, project: Project, synchronous: bool)
      requires forall i :: 0 <= i < |toRemove| ==> toRemove[i].key == TargetDataKey()
      modifies project
      ensures forall e :: e in project.entities <==> e in old(project.entities) && !Addresses(toRemove, e)
      ensures forall e :: e in project.entities ==> project.entities[e] == old(project.entities)[e]
      ensures project.importLog == old(project.importLog)
    {
      project.entities := map e | e in project.entities && !Addresses(toRemove, e) :: project.entities[e];
    }
  }

  /** The services of `registry` bound to `key`, in registration order. */
  function WithKey(registry: seq<ReferenceDataService>, key: Key): (r: seq<ReferenceDataService>)
    ensures forall i :: 0 <= i < |r| ==> r[i] in registry && r[i].key == key
    ensures forall i :: 0 <= i < |registry| && registry[i].key == key ==> registry[i] in r
    ensures forall i :: 0 <= i < |registry| && registry[i].key == key ==>
      multiset(r)[registry[i]] == multiset(registry)[registry[i]]
  {
    assert registry != [] ==> registry == [registry[0]] + registry[1..];
    if registry == [] then []
    else (if registry[0].key == key then [registry[0]] else []) + WithKey(registry[1..], key)
  }

  predicate SortedByOrder(services: seq<ReferenceDataService>)
  {
    forall i, j :: 0 <= i < j < |services| ==> services[i].order <= services[j].order
  }

  /** Inserts `s` before the first service with an Order not smaller. */
  function InsertByOrder(s: ReferenceDataService, sorted: seq<ReferenceDataService>): seq<ReferenceDataService>
  {
    if sorted == [] || s.order <= sorted[0].order then [s] + sorted
    else [sorted[0]] + InsertByOrder(s, sorted[1..])
  }

  lemma {:induction false} InsertByOrderMultiset(s: ReferenceDataService, sorted: seq<ReferenceDataService>)
    ensures multiset(InsertByOrder(s, sorted)) == multiset(sorted) + multiset{s}
  {
    if sorted != [] && s.order > sorted[0].order {
      InsertByOrderMultiset(s, sorted[1..]);
      assert sorted == [sorted[0]] + sorted[1..];
    }
  }

  lemma {:induction false} InsertByOrderSorted(s: ReferenceDataService, sorted: seq<ReferenceDataService>)
    requires SortedByOrder(sorted)
    ensures |InsertByOrder(s, sorted)| == |sorted| + 1
    ensures InsertByOrder(s, sorted)[0] == s || InsertByOrder(s, sorted)[0] == sorted[0]
    ensures SortedByOrder(InsertByOrder(s, sorted))
  {
    if sorted != [] && s.order > sorted[0].order {
      var rest := sorted[1..];
      InsertByOrderSorted(s, rest);
      var tail := InsertByOrder(s, rest);
      var r := [sorted[0]] + tail;
      assert r == InsertByOrder(s, sorted);
      assert sorted[0].order <= tail[0].order;
      forall i, j | 0 <= i < j < |r| ensures r[i].order <= r[j].order {
        if i > 0 {
          assert r[i] == tail[i - 1] && r[j] == tail[j - 1];
        } else {
          assert r[j] == tail[j - 1];
          assert tail[0].order <= tail[j - 1].order;
        }
      }
    }
  }

  /** The services in ascending Order (stable on ties). */
  function SortByOrder(services: seq<ReferenceDataService>): seq<ReferenceDataService>
  {
    if services == [] then []
    else InsertByOrder(services[0], SortByOrder(services[1..]))
  }

  lemma {:induction false} SortByOrderCorrect(services: seq<ReferenceDataService>)
    ensures SortedByOrder(SortByOrder(services))
    ensures multiset(SortByOrder(services)) == multiset(services)
  {
    if services != [] {
      SortByOrderCorrect(services[1..]);
      InsertByOrderSorted(services[0], SortByOrder(services[1..]));
      InsertByOrderMultiset(services[0], SortByOrder(services[1..]));
      assert services == [services[0]] + services[1..];
    }
  }

  lemma SameMembers(a: seq<ReferenceDataService>, b: seq<ReferenceDataService>)
    requires multiset(a) == multiset(b)
    ensures forall i :: 0 <= i < |a| ==> a[i] in b
  {
    forall i | 0 <= i < |a| ensures a[i] in b {
      assert a[i] in multiset(a);
    }
  }

  /** The services the platform calls for data of `key`, in the order it
      calls them: every registered service for that key, each once, smaller
      Order first. */
  function ServicesFor(registry: seq<ReferenceDataService>, key: Key): (r: seq<ReferenceDataService>)
    ensures SortedByOrder(r)
    ensures multiset(r) == multiset(WithKey(registry, key))
    ensures forall i :: 0 <= i < |r| ==> r[i] in registry && r[i].key == key
    ensures forall i :: 0 <= i < |registry| && registry[i].key == key ==> registry[i] in r
  {
    var filtered := WithKey(registry, key);
    SortByOrderCorrect(filtered);
    var r := SortByOrder(filtered);
    SameMembers(r, filtered);
    SameMembers(filtered, r);
    r
  }

  /** A service registered for `key` is called as many times as it is
      registered: never dropped, never called twice for one registration. */
  lemma ServicesForCounts(registry: seq<ReferenceDataService>, key: Key)
    ensures forall i :: 0 <= i < |registry| && registry[i].key == key ==>
      multiset(ServicesFor(registry, key))[registry[i]] == multiset(registry)[registry[i]]
  {
    var filtered := WithKey(registry, key);
    assert multiset(ServicesFor(registry, key)) == multiset(filtered);
  }

  /** Calls `importData` of each of `services`, in sequence order, on the
      same project: the loop of the platform's import for one key. */
  method CallImports(services: seq<ReferenceDataService>, key: Key, nodes: seq<DataNode>,
                     project: Project, synchronous: bool)
    requires forall j :: 0 <= j < |services| ==> services[j].key == key
    requires forall i :: 0 <= i < |nodes| ==> nodes[i].key == key
    modifies project
    ensures project.importLog == old(project.importLog) + services
    ensures services == [] ==> project.entities == old(project.entities)
    ensures services != [] && Consistent(nodes) ==> project.entities == ImportNodes(old(project.entities), nodes)
  {
    ghost var before := project.entities;
    ghost var log := project.importLog;
    for i := 0 to |services|
      invariant project.importLog == log + services[..i]
      invariant i == 0 ==> project.entities == before
      invariant i > 0 && Consistent(nodes) ==> project.entities == ImportNodes(before, nodes)
    {
      var service := services[i];
      service.ImportData(nodes, project, synchronous);
      assert services[..i + 1] == services[..i] + [service];
      if i > 0 && Consistent(nodes) {
        ImportNodesIdempotent(before, nodes);
      }
    }
    assert services[..|services|] == services;
  }

  /** The platform's import of data of one key: every service registered for
      the key imports the nodes, in ascending Order. With a consistent batch
      the project ends as one import leaves it: the later services are
      no-ops. The project's import log records the services called, in
      calling order. */
  method ImportWithAllServices(registry: seq<ReferenceDataService>, key: Key, nodes: seq<DataNode>,
                               project: Project, synchronous: bool)
    requires forall i :: 0 <= i < |nodes| ==> nodes[i].key == key
    modifies project
    ensures project.importLog == old(project.importLog) + ServicesFor(registry, key)
    ensures ServicesFor(registry, key) == [] ==> project.entities == old(project.entities)
    ensures ServicesFor(registry, key) != [] && Consistent(nodes) ==>
      project.entities == ImportNodes(old(project.entities), nodes)
  {
    CallImports(ServicesFor(registry, key), key, nodes, project, synchronous);
  }
}
