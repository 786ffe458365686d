/**
 * The service-definition graph the compiler passes read and rewrite: the
 * host container's definitions in declaration order, its aliases, its
 * parameters and the small auxiliary objects the passes keep in it between
 * invocations. Only the part of the host's API the passes use is modelled.
 */
module Container {
  import opened Values
  import opened Errors

  ghost predicate Distinct<T>(s: seq<T>) {
    forall i, j :: 0 <= i < j < |s| ==> s[i] != s[j]
  }

  /** `s` without the element `x`, order kept. */
  function Without(s: seq<string>, x: string): (r: seq<string>)
    ensures forall y :: y in r <==> y in s && y != x
    ensures Distinct(s) ==> Distinct(r)
  {
    if s == [] then []
    else
      var rest := Without(s[1..], x);
      assert Distinct(s) ==> s[0] !in s[1..];
      if s[0] == x then rest else [s[0]] + rest
  }

  /**
   * The tags of one definition: an insertion-ordered map from tag name to
   * the property maps of its occurrences.
   */
  datatype Tags = Tags(names: seq<string>, occurrences: map<string, seq<Props>>) {

    ghost predicate Valid() {
      Distinct(names) && forall n :: n in occurrences <==> n in names
    }

    predicate Has(name: string) {
      name in occurrences
    }

    function Get(name: string): seq<Props> {
      if name in occurrences then occurrences[name] else []
    }

    /** `addTag($name, $props)`: one more occurrence; a new name goes last. */
    function Add(name: string, props: Props): (t: Tags)
      ensures Valid() ==> t.Valid()
      ensures t.Has(name) && t.Get(name) == Get(name) + [props]
      ensures forall n :: n != name ==> t.Get(n) == Get(n) && (t.Has(n) <==> Has(n))
    {
      Tags(if name in occurrences then names else names + [name], occurrences[name := Get(name) + [props]])
    }

    /** `unset($tags[$name])`. */
    function Remove(name: string): (t: Tags)
      ensures Valid() ==> t.Valid()
      ensures !t.Has(name)
      ensures forall n :: n != name ==> t.Get(n) == Get(n) && (t.Has(n) <==> Has(n))
    {
      Tags(Without(names, name), occurrences - {name})
    }
  }

  const NoTags := Tags([], map[])

  datatype Decoration = Decoration(inner: string, priority: int)

  datatype MethodCall = MethodCall(name: string, args: map<ArgKey, ArgValue>)

  /** A service definition, or a child definition when `parent` is set. */
  datatype Definition = Definition(
    isAbstract: bool,
    className: Option<string>,
    parent: Option<string>,
    args: map<ArgKey, ArgValue>,
    calls: seq<MethodCall>,
    tags: Tags,
    decorates: Option<Decoration>)

  /** The identity of a tag reference: tag name, service and the optional argument. */
  datatype TagIdentity = TagIdentity(tagName: string, serviceId: string, argument: Option<ArgKey>)

  /** A linked `(service, argument)` pair; equal exactly when both parts are. */
  datatype ProcessedArgument = ProcessedArgument(serviceId: string, argument: ArgKey)

  /** The abstract template registered for a decorating tag and the slot that receives the inner service. */
  datatype DecoratorDefinition = DecoratorDefinition(serviceId: string, argument: ArgKey)

  /** Decorating tag name to template, in registration order. */
  datatype Registry = Registry(order: seq<string>, entries: map<string, DecoratorDefinition>) {
    ghost predicate Valid() {
      Distinct(order) && forall n :: n in entries <==> n in order
    }

    /** `put($name, $d)`: a new name goes last, an existing one keeps its place. */
    function Put(name: string, d: DecoratorDefinition): (r: Registry)
      ensures Valid() ==> r.Valid()
      ensures r.entries == entries[name := d]
      ensures name in entries ==> r.order == order
    {
      Registry(if name in entries then order else order + [name], entries[name := d])
    }
  }

  const EmptyRegistry := Registry([], map[])

  /** An element of a persistent processed set. */
  datatype Processed =
    | ListenerTag(name: Scalar)
    | DecoratedTag(identity: TagIdentity)
    | LinkedArgument(linked: ProcessedArgument)

  /**
   * The auxiliary objects the passes keep in the container under string keys
   * between invocations: processed sets and decorator registries.
   */
  datatype Store = Store(sets: map<string, set<Processed>>, registries: map<string, Registry>)

  /** The value of the whole graph. */
  datatype GraphState = GraphState(
    ids: seq<string>,
    defs: map<string, Definition>,
    aliases: map<string, string>,
    params: map<string, ArgValue>,
    store: Store)
  {
    /** `ids` lists every definition once, in declaration order. */
    ghost predicate Valid() {
      && Distinct(ids)
      && (forall id :: id in defs <==> id in ids)
      && (forall id | id in defs :: defs[id].tags.Valid())
    }

    /**
     * `setDefinition($id, $d)`: replaces in place, or appends a new id; an
     * alias named `id` is dropped.
     */
    function SetDefinition(id: string, d: Definition): (g: GraphState)
      ensures Valid() && d.tags.Valid() ==> g.Valid()
      ensures id in g.defs && g.defs[id] == d
      ensures forall x :: x != id ==> (x in g.defs <==> x in defs)
      ensures forall x | x != id && x in defs :: g.defs[x] == defs[x]
      ensures g.aliases == aliases - {id}
      ensures g.params == params && g.store == store
    {
      this.(ids := if id in defs then ids else ids + [id], defs := defs[id := d], aliases := aliases - {id})
    }

    /** `findDefinition($id)->setArgument($k, $v)`. */
    function SetArgument(id: string, k: ArgKey, v: ArgValue): (g: GraphState)
      requires id in defs
      ensures Valid() ==> g.Valid()
      ensures id in g.defs && g.defs[id].args == defs[id].args[k := v]
      ensures g == this.(defs := defs[id := g.defs[id]])
    {
      this.(defs := defs[id := defs[id].(args := defs[id].args[k := v])])
    }

    /** `findDefinition($id)->addMethodCall($m, $args)`. */
    function AddMethodCall(id: string, c: MethodCall): (g: GraphState)
      requires id in defs
      ensures Valid() ==> g.Valid()
      ensures id in g.defs && g.defs[id].calls == defs[id].calls + [c]
      ensures g == this.(defs := defs[id := g.defs[id]])
    {
      this.(defs := defs[id := defs[id].(calls := defs[id].calls + [c])])
    }

    /** `setAlias($alias, $target)`: a definition named `alias` is dropped. */
    function SetAlias(alias: string, target: string): (g: GraphState)
      ensures Valid() ==> g.Valid()
      ensures g.aliases == aliases[alias := target]
      ensures alias !in g.defs && forall x :: x != alias ==> (x in g.defs <==> x in defs)
      ensures forall x | x != alias && x in defs :: g.defs[x] == defs[x]
      ensures g.params == params && g.store == store
    {
      this.(ids := Without(ids, alias), defs := defs - {alias}, aliases := aliases[alias := target])
    }

    function WithStore(s: Store): (g: GraphState)
      ensures Valid() ==> g.Valid()
    {
      this.(store := s)
    }

    /** Get-or-create of the processed set stored under `key`. */
    function EnsureSet(key: string): (g: GraphState)
      ensures Valid() ==> g.Valid()
      ensures key in g.store.sets
      ensures key in store.sets ==> g == this
      ensures key !in store.sets ==> g.store.sets[key] == {}
      ensures g.(store := store) == this && g.store.registries == store.registries
      ensures forall k :: k != key ==> (k in g.store.sets <==> k in store.sets)
      ensures forall k | k != key && k in store.sets :: g.store.sets[k] == store.sets[k]
    {
      if key in store.sets then this else this.(store := store.(sets := store.sets[key := {}]))
    }

    /** Get-or-create of the decorator registry stored under `key`. */
    function EnsureRegistry(key: string): (g: GraphState)
      ensures Valid() ==> g.Valid()
      ensures key in g.store.registries
      ensures key in store.registries ==> g == this
      ensures key !in store.registries ==> g.store.registries == store.registries[key := EmptyRegistry]
      ensures g.(store := store) == this && g.store.sets == store.sets
    {
      if key in store.registries then this else this.(store := store.(registries := store.registries[key := EmptyRegistry]))
    }

    function WithRegistry(key: string, r: Registry): (g: GraphState)
      ensures Valid() ==> g.Valid()
      ensures g.store.registries == store.registries[key := r]
      ensures g.(store := store) == this && g.store.sets == store.sets
    {
      this.(store := store.(registries := store.registries[key := r]))
    }

    /** Adds `x` to the processed set stored under `key`. */
    function MarkProcessed(key: string, x: Processed): (g: GraphState)
      requires key in store.sets
      ensures Valid() ==> g.Valid()
      ensures g.store.sets == store.sets[key := store.sets[key] + {x}]
      ensures g.(store := store) == this && g.store.registries == store.registries
    {
      this.(store := store.(sets := store.sets[key := store.sets[key] + {x}]))
    }

    /** `findDefinition($id)`, failing for an unknown id. */
    function Find(id: string): (r: Result<Definition>)
      ensures r.Ok? <==> id in defs
      ensures r.Ok? ==> r.value == defs[id]
      ensures r.Err? ==> r.error == ServiceNotFound(id)
    {
      if id in defs then Ok(defs[id]) else Err(ServiceNotFound(id))
    }

    /** `findTaggedServiceIds($tag)`: tagged services and their occurrences, in declaration order. */
    function TaggedServices(tag: string): seq<(string, seq<Props>)> {
      TaggedIn(ids, defs, tag)
    }
  }

  /**
   * A pass that ran against a graph now in state `now` reported `r`, and the
   * specification of that run is `spec`: both fail with the same error, or
   * both succeed and the graph is in the specified state.
   */
  ghost predicate Reflects(r: Status, spec: Result<GraphState>, now: GraphState) {
    match spec
    case Ok(s) => r.Pass? && now == s
    case Err(e) => r == Fail(e)
  }

  function TaggedIn(ids: seq<string>, defs: map<string, Definition>, tag: string): (r: seq<(string, seq<Props>)>)
    ensures forall e :: e in r ==> e.0 in ids && e.0 in defs && defs[e.0].tags.Has(tag) && e.1 == defs[e.0].tags.Get(tag)
  {
    if ids == [] then []
    else
      var head := if ids[0] in defs && defs[ids[0]].tags.Has(tag) then [(ids[0], defs[ids[0]].tags.Get(tag))] else [];
      head + TaggedIn(ids[1..], defs, tag)
  }

  /** A service is listed exactly when it is defined and declares the tag. */
  lemma {:induction false} TaggedInComplete(ids: seq<string>, defs: map<string, Definition>, tag: string, id: string)
    requires id in ids && id in defs && defs[id].tags.Has(tag)
    ensures (id, defs[id].tags.Get(tag)) in TaggedIn(ids, defs, tag)
  {
    if ids[0] != id {
      TaggedInComplete(ids[1..], defs, tag, id);
    }
  }

  /** Only the tags matter: two graphs with the same ids and tags list the same tagged services. */
  lemma {:induction false} TaggedInSameTags(ids: seq<string>, defs: map<string, Definition>, defs': map<string, Definition>, tag: string)
    requires forall id :: id in defs <==> id in defs'
    requires forall id | id in defs :: defs[id].tags == defs'[id].tags
    ensures TaggedIn(ids, defs, tag) == TaggedIn(ids, defs', tag)
  {
    if ids != [] {
      TaggedInSameTags(ids[1..], defs, defs', tag);
    }
  }

  /**
   * The container the passes run against. Its methods are the host API the
   * passes call; each is specified by the matching GraphState function.
   */
  class Graph {
    var ids: seq<string>
    var defs: map<string, Definition>
    var aliases: map<string, string>
    const params: map<string, ArgValue>
    var store: Store

    function State(): GraphState
      reads this
    {
      GraphState(ids, defs, aliases, params, store)
    }

    ghost predicate Valid()
      reads this
    {
      State().Valid()
    }

    constructor (s: GraphState)
      ensures State() == s
    {
      ids, defs, aliases, params, store := s.ids, s.defs, s.aliases, s.params, s.store;
    }

    method SetDefinition(id: string, d: Definition)
      modifies this
      ensures State() == old(State()).SetDefinition(id, d)
    {
      if id !in defs {
        ids := ids + [id];
      }
      defs := defs[id := d];
      aliases := aliases - {id};
    }

    method SetArgument(id: string, k: ArgKey, v: ArgValue)
      requires id in defs
      modifies this
      ensures State() == old(State()).SetArgument(id, k, v)
    {
      defs := defs[id := defs[id].(args := defs[id].args[k := v])];
    }

    method AddMethodCall(id: string, c: MethodCall)
      requires id in defs
      modifies this
      ensures State() == old(State()).AddMethodCall(id, c)
    {
      defs := defs[id := defs[id].(calls := defs[id].calls + [c])];
    }

    method SetAlias(alias: string, target: string)
      modifies this
      ensures State() == old(State()).SetAlias(alias, target)
    {
      ids := Without(ids, alias);
      defs := defs - {alias};
      aliases := aliases[alias := target];
    }

    method SetStore(s: Store)
      modifies this
      ensures State() == old(State()).WithStore(s)
    {
      store := s;
    }
  }
}
