/**
 * The console runnable pass. A service tagged with the pass tag is a
 * runnable; the tag names its command either directly (`command`) or through
 * a mapper class (`mapper`) that maps the runnable's class to a command
 * name. For each runnable the pass defines `<id>.command`, a console command
 * wrapping it. Mapper classes are loaded through a registry and each is
 * instantiated at most once per run.
 */
module ConsoleRunnablePass {
  import opened Values
  import opened Errors
  import opened Container
  import opened Asserts
  import opened RunnableMapper

  const DefaultTag := "console_runnable"

  const CommandOption := "command"

  const MapperOption := "mapper"

  const StringType := {TString}

  const RunnableCommandClass := "Zlikavac32\\SymfonyExtras\\Command\\Runnable\\RunnableCommand"

  const ConsoleCommandTag := "console.command"

  /**
   * What loading a mapper class by name gives: a class that does not
   * implement the mapper interface, or an instance of one that does. A name
   * absent from the registry is a class that does not exist.
   */
  datatype MapperClass = NotImplementing | Implementing(mapper: NameMapper)

  type MapperRegistry = map<string, MapperClass>

  // ---------------------------------------------------------------------------
  // The command definition

  /** The id of the command wrapping a runnable. */
  function CommandId(sid: string): string {
    sid + ".command"
  }

  /** Different runnables get different command ids. */
  lemma CommandIdInjective(a: string, b: string)
    ensures CommandId(a) == CommandId(b) ==> a == b
  {
    if CommandId(a) == CommandId(b) {
      assert a == CommandId(a)[..|a|];
      assert b == CommandId(b)[..|b|];
    }
  }

  /** `createCommandService`: a `RunnableCommand` over the runnable and the name, tagged as a console command. */
  function CommandDefinition(sid: string, name: string): Definition {
    Definition(
      false,
      Some(RunnableCommandClass),
      None,
      map[Index(0) := Ref(sid), Index(1) := Literal(Str(name))],
      [],
      Tags([ConsoleCommandTag], map[ConsoleCommandTag := [map[]]]),
      None)
  }

  /** `d` is the command wrapping runnable `sid`, under some name. */
  ghost predicate IsCommandFor(d: Definition, sid: string) {
    exists name :: d == CommandDefinition(sid, name)
  }

  // ---------------------------------------------------------------------------
  // Validation

  /** `findTaggedServiceIds($tag, true)`: the host refuses a tagged abstract service, the first one found. */
  function ConcreteTagged(defs: map<string, Definition>, tagged: seq<(string, seq<Props>)>, tag: string): (r: Status)
    requires forall e :: e in tagged ==> e.0 in defs
    ensures r.Pass? <==> forall k :: 0 <= k < |tagged| ==> !defs[tagged[k].0].isAbstract
    decreases |tagged|
  {
    if tagged == [] then Pass
    else if defs[tagged[0].0].isAbstract then Fail(TaggedServiceAbstract(tagged[0].0, tag))
    else
      var r := ConcreteTagged(defs, tagged[1..], tag);
      assert forall k :: 1 <= k < |tagged| ==> tagged[k] == tagged[1..][k - 1];
      r
  }

  /** The tag names its command or its mapper, and that value is a string. */
  predicate WellFormedTag(occ: Props) {
    && (IsSet(occ, CommandOption) != IsSet(occ, MapperOption))
    && (IsSet(occ, CommandOption) ==> occ[CommandOption].Str?)
    && (IsSet(occ, MapperOption) ==> occ[MapperOption].Str?)
  }

  /**
   * `assertValidTagDefinition`: exactly one of `command` and `mapper` is
   * set, and it is a string. Neither and both are reported as such.
   */
  function TagDefinitionCheck(tag: string, sid: string, occ: Props): (r: Status)
    ensures r.Pass? <==> WellFormedTag(occ)
    ensures !IsSet(occ, CommandOption) && !IsSet(occ, MapperOption) ==> r == Fail(NoCommandOrMapper(tag, sid))
    ensures IsSet(occ, CommandOption) && IsSet(occ, MapperOption) ==> r == Fail(BothCommandAndMapper(tag, sid))
  {
    var hasCommand, hasMapper := IsSet(occ, CommandOption), IsSet(occ, MapperOption);
    if !hasCommand && !hasMapper then Fail(NoCommandOrMapper(tag, sid))
    else if hasCommand && hasMapper then Fail(BothCommandAndMapper(tag, sid))
    else if hasCommand then AssertValueIsOfType(occ[CommandOption], StringType, CommandOption, sid)
    else AssertValueIsOfType(occ[MapperOption], StringType, MapperOption, sid)
  }

  // ---------------------------------------------------------------------------
  // Command names

  /** `createMapper`: the class must exist and implement the mapper interface. */
  function MapperFor(registry: MapperRegistry, mapperClass: string, sid: string): (r: Result<NameMapper>)
    ensures r.Ok? <==> mapperClass in registry && registry[mapperClass].Implementing?
    ensures r.Ok? ==> registry[mapperClass] == Implementing(r.value)
    ensures mapperClass !in registry ==> r == Err(MapperDoesNotExist(mapperClass, sid))
    ensures mapperClass in registry && registry[mapperClass].NotImplementing? ==> r == Err(MapperNotImplementing(mapperClass, sid))
  {
    if mapperClass !in registry then Err(MapperDoesNotExist(mapperClass, sid))
    else match registry[mapperClass]
      case NotImplementing => Err(MapperNotImplementing(mapperClass, sid))
      case Implementing(m) => Ok(m)
  }

  /** `findDefinition($id)->getClass()`: the runnable's class, which the mapper needs as a string. */
  function RunnableClass(gs: GraphState, sid: string): Result<string> {
    var d :- gs.Find(sid);
    if d.className.Some? then Ok(d.className.value) else Err(RunnableClassMissing(sid))
  }

  /** The command name a tag asks for, computed without any cache: the reference for `resolveCommandName`. */
  function CommandName(registry: MapperRegistry, gs: GraphState, sid: string, occ: Props): Result<string>
    requires WellFormedTag(occ)
  {
    if IsSet(occ, CommandOption) then Ok(occ[CommandOption].s)
    else
      var mapper :- MapperFor(registry, occ[MapperOption].s, sid);
      var fqn :- RunnableClass(gs, sid);
      mapper(fqn)
  }

  /**
   * The state of one run: the graph, the mapper instances cached by class,
   * and the log of mapper classes instantiated, oldest first.
   */
  datatype RunState = RunState(gs: GraphState, mappers: map<string, NameMapper>, created: seq<string>)

  /** The mapper of a class from the cache, instantiating and caching it on first use. */
  function CachedMapper(st: RunState, registry: MapperRegistry, mapperClass: string, sid: string): (r: Result<RunState>)
    ensures r.Ok? ==> mapperClass in r.value.mappers && r.value.gs == st.gs
  {
    if mapperClass in st.mappers then Ok(st)
    else
      var mapper :- MapperFor(registry, mapperClass, sid);
      Ok(st.(mappers := st.mappers[mapperClass := mapper], created := st.created + [mapperClass]))
  }

  /** `resolveCommandName`: the command value, or the cached mapper applied to the runnable's class. */
  function ResolvedName(st: RunState, registry: MapperRegistry, sid: string, occ: Props): Result<(string, RunState)>
    requires WellFormedTag(occ)
  {
    if IsSet(occ, CommandOption) then Ok((occ[CommandOption].s, st))
    else
      var mapperClass := occ[MapperOption].s;
      var st' :- CachedMapper(st, registry, mapperClass, sid);
      var fqn :- RunnableClass(st'.gs, sid);
      var name :- st'.mappers[mapperClass](fqn);
      Ok((name, st'))
  }

  /** Every cached mapper is the instance the registry gives for its class. */
  ghost predicate CacheFaithful(mappers: map<string, NameMapper>, registry: MapperRegistry) {
    forall c :: c in mappers ==> c in registry && registry[c] == Implementing(mappers[c])
  }

  /** Since `base`, each cached class was instantiated exactly once, and nothing else was. */
  ghost predicate CreatedOnce(st: RunState, base: nat) {
    && base <= |st.created|
    && Distinct(st.created[base..])
    && forall c :: c in st.created[base..] <==> c in st.mappers
  }

  /**
   * The cache is transparent: with a faithful cache, resolving gives the
   * name the cache-free reference gives, fails exactly when it fails, keeps
   * the graph and the cache faithful, and instantiates a class only on a miss.
   */
  lemma {:induction false} ResolvedNameIsCommandName(st: RunState, registry: MapperRegistry, sid: string, occ: Props, base: nat)
    requires WellFormedTag(occ)
    requires CacheFaithful(st.mappers, registry) && CreatedOnce(st, base)
    ensures var r := ResolvedName(st, registry, sid, occ);
      && (r.Ok? <==> CommandName(registry, st.gs, sid, occ).Ok?)
      && (r.Ok? ==> r.value.0 == CommandName(registry, st.gs, sid, occ).value)
      && (r.Err? ==> r.error == CommandName(registry, st.gs, sid, occ).error)
      && (r.Ok? ==> r.value.1.gs == st.gs && CacheFaithful(r.value.1.mappers, registry) && CreatedOnce(r.value.1, base))
  {
    if !IsSet(occ, CommandOption) {
      var mapperClass := occ[MapperOption].s;
      var c := CachedMapper(st, registry, mapperClass, sid);
      if c.Ok? && mapperClass !in st.mappers {
        var st' := c.value;
        assert st'.created[base..] == st.created[base..] + [mapperClass];
        DistinctSnoc(st.created[base..], mapperClass);
      }
    }
  }

  lemma DistinctSnoc(s: seq<string>, x: string)
    requires Distinct(s) && x !in s
    ensures Distinct(s + [x])
  {
  }

  // ---------------------------------------------------------------------------
  // The run

  /** One runnable: a single tag, well formed, a resolvable name; then its command is defined. */
  function RunOne(st: RunState, registry: MapperRegistry, tag: string, sid: string, occs: seq<Props>): Result<RunState> {
    var commandId := CommandId(sid);
    :- AssertOnlyOneTagPerService(occs, tag, sid);
    :- TagDefinitionCheck(tag, sid, occs[0]);
    var resolved :- ResolvedName(st, registry, sid, occs[0]);
    var st' := resolved.1;
    Ok(st'.(gs := st'.gs.SetDefinition(commandId, CommandDefinition(sid, resolved.0))))
  }

  /** The loop of `process` over the tagged services, stopping at the first error. */
  function Runnables(st: RunState, registry: MapperRegistry, tag: string, tagged: seq<(string, seq<Props>)>): Result<RunState>
    decreases |tagged|
  {
    if tagged == [] then Ok(st)
    else
      var st' :- RunOne(st, registry, tag, tagged[0].0, tagged[0].1);
      Runnables(st', registry, tag, tagged[1..])
  }

  /** One step of the run: the first runnable, then the rest from where it left the state. */
  lemma RunnablesCons(st: RunState, registry: MapperRegistry, tag: string, tagged: seq<(string, seq<Props>)>)
    requires tagged != []
    ensures Runnables(st, registry, tag, tagged) ==
      match RunOne(st, registry, tag, tagged[0].0, tagged[0].1)
      case Ok(st') => Runnables(st', registry, tag, tagged[1..])
      case Err(e) => Err(e)
  {
  }

  /** The loop step of `process`: a failing runnable ends the run with its error, a passing one hands on its state. */
  lemma RunnablesStep(cur: RunState, registry: MapperRegistry, tag: string, tagged: seq<(string, seq<Props>)>, i: nat,
                      r: Status, gs: GraphState, mappers: map<string, NameMapper>, created: seq<string>)
    requires i < |tagged|
    requires ReflectsRun(r, RunOne(cur, registry, tag, tagged[i].0, tagged[i].1), gs, mappers, created)
    ensures r.Fail? ==> ReflectsRun(r, Runnables(cur, registry, tag, tagged[i..]), gs, mappers, created)
    ensures r.Pass? ==> Runnables(cur, registry, tag, tagged[i..]) == Runnables(RunState(gs, mappers, created), registry, tag, tagged[i + 1..])
  {
    assert tagged[i..][1..] == tagged[i + 1..];
    RunnablesCons(cur, registry, tag, tagged[i..]);
  }

  /** `process`: the cache starts empty and is dropped at the end; the instantiation log carries over. */
  function Register(gs: GraphState, registry: MapperRegistry, tag: string, created: seq<string>): Result<RunState> {
    var tagged := gs.TaggedServices(tag);
    :- ConcreteTagged(gs.defs, tagged, tag);
    var st :- Runnables(RunState(gs, map[], created), registry, tag, tagged);
    Ok(st.(mappers := map[]))
  }

  /**
   * One runnable succeeds exactly when it has one tag, the tag is well
   * formed and its command name resolves; its command is then defined under
   * that name, and nothing else in the graph changes. The checks fail in
   * order: the number of tags, then the tag's options, then the name.
   */
  lemma RunOneSpec(st: RunState, registry: MapperRegistry, tag: string, sid: string, occs: seq<Props>, base: nat)
    requires CacheFaithful(st.mappers, registry) && CreatedOnce(st, base)
    ensures var r := RunOne(st, registry, tag, sid, occs);
      && (r.Ok? <==> |occs| == 1 && WellFormedTag(occs[0]) && CommandName(registry, st.gs, sid, occs[0]).Ok?)
      && (r.Ok? ==> r.value.gs == st.gs.SetDefinition(CommandId(sid), CommandDefinition(sid, CommandName(registry, st.gs, sid, occs[0]).value)))
      && (r.Ok? ==> CacheFaithful(r.value.mappers, registry) && CreatedOnce(r.value, base))
      && (|occs| != 1 ==> r == Err(MultipleTags(sid, tag)))
      && (|occs| == 1 && !WellFormedTag(occs[0]) ==> r == Err(TagDefinitionCheck(tag, sid, occs[0]).error))
      && (|occs| == 1 && WellFormedTag(occs[0]) && CommandName(registry, st.gs, sid, occs[0]).Err? ==>
            r == Err(CommandName(registry, st.gs, sid, occs[0]).error))
  {
    if |occs| == 1 && WellFormedTag(occs[0]) {
      ResolvedNameIsCommandName(st, registry, sid, occs[0], base);
    }
  }

  /** The cache stays faithful and each mapper class is instantiated at most once over a whole run. */
  lemma {:induction false} RunnablesKeepCache(st: RunState, registry: MapperRegistry, tag: string, tagged: seq<(string, seq<Props>)>, base: nat)
    requires CacheFaithful(st.mappers, registry) && CreatedOnce(st, base)
    requires Runnables(st, registry, tag, tagged).Ok?
    ensures CacheFaithful(Runnables(st, registry, tag, tagged).value.mappers, registry)
    ensures CreatedOnce(Runnables(st, registry, tag, tagged).value, base)
    decreases |tagged|
  {
    if tagged != [] {
      RunOneSpec(st, registry, tag, tagged[0].0, tagged[0].1, base);
      RunnablesKeepCache(RunOne(st, registry, tag, tagged[0].0, tagged[0].1).value, registry, tag, tagged[1..], base);
    }
  }

  /** A command already defined for `sid` survives the rest of the run. */
  lemma {:induction false} RunnablesKeepCommand(st: RunState, registry: MapperRegistry, tag: string, tagged: seq<(string, seq<Props>)>, sid: string)
    requires Runnables(st, registry, tag, tagged).Ok?
    requires CommandId(sid) in st.gs.defs && IsCommandFor(st.gs.defs[CommandId(sid)], sid)
    ensures var gs' := Runnables(st, registry, tag, tagged).value.gs;
      CommandId(sid) in gs'.defs && IsCommandFor(gs'.defs[CommandId(sid)], sid)
    decreases |tagged|
  {
    if tagged != [] {
      var st' := RunOne(st, registry, tag, tagged[0].0, tagged[0].1).value;
      CommandIdInjective(sid, tagged[0].0);
      if tagged[0].0 == sid {
        var resolved := ResolvedName(st, registry, sid, tagged[0].1[0]).value;
        assert st'.gs.defs[CommandId(sid)] == CommandDefinition(sid, resolved.0);
      }
      RunnablesKeepCommand(st', registry, tag, tagged[1..], sid);
    }
  }

  /** After a successful run, every tagged service has its command. */
  lemma {:induction false} RunnablesDefineCommands(st: RunState, registry: MapperRegistry, tag: string, tagged: seq<(string, seq<Props>)>)
    requires Runnables(st, registry, tag, tagged).Ok?
    ensures var gs' := Runnables(st, registry, tag, tagged).value.gs;
      forall k :: 0 <= k < |tagged| ==> CommandId(tagged[k].0) in gs'.defs && IsCommandFor(gs'.defs[CommandId(tagged[k].0)], tagged[k].0)
    decreases |tagged|
  {
    if tagged != [] {
      var sid := tagged[0].0;
      var st' := RunOne(st, registry, tag, sid, tagged[0].1).value;
      var resolved := ResolvedName(st, registry, sid, tagged[0].1[0]).value;
      assert st'.gs.defs[CommandId(sid)] == CommandDefinition(sid, resolved.0);
      RunnablesKeepCommand(st', registry, tag, tagged[1..], sid);
      RunnablesDefineCommands(st', registry, tag, tagged[1..]);
      forall k | 1 <= k < |tagged| ensures tagged[k] == tagged[1..][k - 1] {
      }
    }
  }

  /**
   * A successful run defines a command for every tagged runnable, and
   * instantiates each mapper class at most once.
   */
  lemma RegisterSpec(gs: GraphState, registry: MapperRegistry, tag: string, created: seq<string>)
    requires Register(gs, registry, tag, created).Ok?
    ensures var r := Register(gs, registry, tag, created).value;
      && (forall e :: e in gs.TaggedServices(tag) ==> CommandId(e.0) in r.gs.defs && IsCommandFor(r.gs.defs[CommandId(e.0)], e.0))
      && created <= r.created
      && Distinct(r.created[|created|..])
  {
    var tagged := gs.TaggedServices(tag);
    var st0 := RunState(gs, map[], created);
    assert st0.created[|created|..] == [];
    RunnablesKeepCache(st0, registry, tag, tagged, |created|);
    RunnablesDefineCommands(st0, registry, tag, tagged);
    RunnablesKeepLog(st0, registry, tag, tagged);
  }

  /** The instantiation log only grows. */
  lemma {:induction false} RunnablesKeepLog(st: RunState, registry: MapperRegistry, tag: string, tagged: seq<(string, seq<Props>)>)
    requires Runnables(st, registry, tag, tagged).Ok?
    ensures st.created <= Runnables(st, registry, tag, tagged).value.created
    decreases |tagged|
  {
    if tagged != [] {
      var st' := RunOne(st, registry, tag, tagged[0].0, tagged[0].1).value;
      RunOneKeepsLog(st, registry, tag, tagged[0].0, tagged[0].1);
      RunnablesKeepLog(st', registry, tag, tagged[1..]);
    }
  }

  lemma RunOneKeepsLog(st: RunState, registry: MapperRegistry, tag: string, sid: string, occs: seq<Props>)
    requires RunOne(st, registry, tag, sid, occs).Ok?
    ensures st.created <= RunOne(st, registry, tag, sid, occs).value.created
  {
    if !IsSet(occs[0], CommandOption) && occs[0][MapperOption].s !in st.mappers {
      assert st.created <= st.created + [occs[0][MapperOption].s];
    }
  }

  // ---------------------------------------------------------------------------
  // The pass object

  /** A run reported `r`; on success the graph and the instantiation log are the specified ones. */
  ghost predicate ReflectsRun(r: Status, spec: Result<RunState>, gs: GraphState, mappers: map<string, NameMapper>, created: seq<string>) {
    match spec
    case Ok(s) => r.Pass? && gs == s.gs && mappers == s.mappers && created == s.created
    case Err(e) => r == Fail(e)
  }

  class ConsoleRunnablePass {
    const tag: string
    /** The mapper classes the pass can load, by name. */
    const registry: MapperRegistry
    /** The mapper instances of the current run, by class. */
    var mappers: map<string, NameMapper>
    /** The mapper classes instantiated, oldest first. */
    var created: seq<string>

    constructor (tag: string, registry: MapperRegistry)
      ensures this.tag == tag && this.registry == registry && mappers == map[] && created == []
    {
      this.tag := tag;
      this.registry := registry;
      mappers := map[];
      created := [];
    }

    /** `process`: the graph and the log end up as specified; the cache is empty afterwards, whatever happened. */
    method Process(g: Graph) returns (r: Status)
      modifies this, g
      ensures ReflectsRun(r, Register(old(g.State()), registry, tag, old(created)), g.State(), map[], created)
      ensures mappers == map[]
    {
      mappers := map[];
      var tagged := g.State().TaggedServices(tag);
      r := ConcreteTagged(g.State().defs, tagged, tag);
      if r.Fail? {
        return;
      }
      r := RegisterRunnables(g, tagged);
      mappers := map[];
    }

    /** The loop of `process`: registers each tagged service in turn, stopping at the first error. */
    method RegisterRunnables(g: Graph, tagged: seq<(string, seq<Props>)>) returns (r: Status)
      modifies this, g
      ensures ReflectsRun(r, Runnables(old(RunState(g.State(), mappers, created)), registry, tag, tagged), g.State(), mappers, created)
    {
      ghost var start := RunState(g.State(), mappers, created);
      var i := 0;
      while i < |tagged|
        invariant 0 <= i <= |tagged|
        invariant start == old(RunState(g.State(), mappers, created))
        invariant Runnables(start, registry, tag, tagged) == Runnables(RunState(g.State(), mappers, created), registry, tag, tagged[i..])
      {
        ghost var cur := RunState(g.State(), mappers, created);
        r := RegisterRunnable(g, tagged[i].0, tagged[i].1);
        RunnablesStep(cur, registry, tag, tagged, i, r, g.State(), mappers, created);
        if r.Fail? {
          return;
        }
        i := i + 1;
      }
      r := Pass;
    }

    /** The body of the `process` loop for one tagged service. */
    method RegisterRunnable(g: Graph, sid: string, occs: seq<Props>) returns (r: Status)
      modifies this, g
      ensures ReflectsRun(r, RunOne(old(RunState(g.State(), mappers, created)), registry, tag, sid, occs), g.State(), mappers, created)
    {
      r := AssertOnlyOneTagPerService(occs, tag, sid);
      if r.Fail? {
        return;
      }
      r := TagDefinitionCheck(tag, sid, occs[0]);
      if r.Fail? {
        return;
      }
      var name := ResolveCommandName(g, sid, occs[0]);
      if name.Err? {
        return Fail(name.error);
      }
      CreateCommandService(g, sid, name.value);
    }

    /** `resolveCommandName`: may instantiate and cache the mapper; reads the graph only. */
    method ResolveCommandName(g: Graph, sid: string, occ: Props) returns (r: Result<string>)
      requires WellFormedTag(occ)
      modifies this
      ensures match ResolvedName(old(RunState(g.State(), mappers, created)), registry, sid, occ)
        case Ok(res) => r == Ok(res.0) && mappers == res.1.mappers && created == res.1.created
        case Err(e) => r == Err(e)
    {
      if IsSet(occ, CommandOption) {
        return Ok(occ[CommandOption].s);
      }
      var mapperClass := occ[MapperOption].s;
      if mapperClass !in mappers {
        var mapper := CreateMapper(mapperClass, sid);
        if mapper.Err? {
          return Err(mapper.error);
        }
        mappers := mappers[mapperClass := mapper.value];
        created := created + [mapperClass];
      }
      var fqn := RunnableClass(g.State(), sid);
      if fqn.Err? {
        return Err(fqn.error);
      }
      r := mappers[mapperClass](fqn.value);
    }

    /** `createMapper`: looks the class up; changes nothing. */
    method CreateMapper(mapperClass: string, sid: string) returns (r: Result<NameMapper>)
      ensures r == MapperFor(registry, mapperClass, sid)
    {
      if mapperClass !in registry {
        return Err(MapperDoesNotExist(mapperClass, sid));
      }
      match registry[mapperClass]
      case NotImplementing =>
        return Err(MapperNotImplementing(mapperClass, sid));
      case Implementing(m) =>
        return Ok(m);
    }

    /** `createCommandService`: defines `<id>.command`, replacing any definition under that id. */
    method CreateCommandService(g: Graph, sid: string, name: string)
      modifies g
      ensures g.State() == old(g.State()).SetDefinition(CommandId(sid), CommandDefinition(sid, name))
      ensures IsCommandFor(g.State().defs[CommandId(sid)], sid)
    {
      g.SetDefinition(CommandId(sid), CommandDefinition(sid, name));
    }
  }
}
