/**
 * The service linker pass. A consumer tagged with the pass tag names an
 * argument slot; the slot is linked either directly to the service a provider
 * table maps a key to, or indirectly: every service carrying the named
 * resolver tag gets its own slot filled from a provider, a parameter or a
 * service. Linked `(service, argument)` pairs are remembered in a persistent
 * processed set.
 */
module ServiceLinkerPass {
  import opened Values
  import opened Errors
  import opened Container
  import opened Asserts
  import opened Functions

  const PassClass := "Zlikavac32\\SymfonyExtras\\DependencyInjection\\Compiler\\ServiceLinkerPass"

  const ArgumentTypes := {TInteger, TString}

  const StringType := {TString}

  function LinkedKey(tag: string): string {
    ProcessedKey(PassClass, tag, "linked_arguments")
  }

  /** The marker of a linked slot; two markers are equal exactly when service and argument are. */
  function Marker(sid: string, arg: ArgKey): Processed {
    LinkedArgument(ProcessedArgument(sid, arg))
  }

  lemma MarkerInjective(sid: string, arg: ArgKey, sid': string, arg': ArgKey)
    ensures Marker(sid, arg) == Marker(sid', arg') <==> sid == sid' && arg == arg'
  {
  }

  // ---------------------------------------------------------------------------
  // Provider tables

  /** A provider table: provided key to the providing service. */
  type Table = map<string, string>

  /** The `provides` value of each occurrence of a provider tag, with its service, in order. */
  function Provisions(sid: string, occs: seq<Props>): (ps: seq<(string, Scalar)>)
    ensures |ps| == |occs|
    ensures forall k :: 0 <= k < |occs| ==> ps[k] == (sid, GetOr(occs[k], "provides", Null))
    decreases |occs|
  {
    if occs == [] then [] else [(sid, GetOr(occs[0], "provides", Null))] + Provisions(sid, occs[1..])
  }

  /** The provisions of every tagged service, service by service. */
  function AllProvisions(tagged: seq<(string, seq<Props>)>): seq<(string, Scalar)>
    decreases |tagged|
  {
    if tagged == [] then [] else Provisions(tagged[0].0, tagged[0].1) + AllProvisions(tagged[1..])
  }

  /** `discoverProvidersFromTags`, over a list of provisions: each key must be a string and new. */
  function Provide(table: Table, ps: seq<(string, Scalar)>, providerTag: string): Result<Table>
    decreases |ps|
  {
    if ps == [] then Ok(table)
    else
      var (sid, key) := ps[0];
      :- AssertValueIsOfType(key, StringType, "provides", sid);
      if key.s in table then Err(AlreadyProvided(table[key.s], key.s, providerTag))
      else Provide(table[key.s := sid], ps[1..], providerTag)
  }

  /** Providing from two lists in a row is providing from their concatenation. */
  lemma {:induction false} ProvideAppend(table: Table, a: seq<(string, Scalar)>, b: seq<(string, Scalar)>, providerTag: string)
    ensures Provide(table, a + b, providerTag) ==
      (match Provide(table, a, providerTag)
       case Ok(t) => Provide(t, b, providerTag)
       case Err(e) => Err(e))
    decreases |a|
  {
    if a != [] {
      assert (a + b)[1..] == a[1..] + b;
      if a[0].1.Str? && a[0].1.s !in table {
        ProvideAppend(table[a[0].1.s := a[0].0], a[1..], b, providerTag);
      }
    } else {
      assert a + b == b;
    }
  }

  /** The keys are strings, none already in the table and no two the same. */
  ghost predicate Providable(table: Table, ps: seq<(string, Scalar)>) {
    && (forall i :: 0 <= i < |ps| ==> ps[i].1.Str? && ps[i].1.s !in table)
    && (forall i, j :: 0 <= i < j < |ps| ==> ps[i].1 != ps[j].1)
  }

  /** The table holds the old entries and maps each provided key to its provider. */
  ghost predicate Provides(table: Table, ps: seq<(string, Scalar)>, result: Table)
    requires forall i :: 0 <= i < |ps| ==> ps[i].1.Str?
  {
    && (forall key :: key in result <==> key in table || exists i :: 0 <= i < |ps| && ps[i].1 == Str(key))
    && (forall key | key in table :: result[key] == table[key])
    && (forall i | 0 <= i < |ps| :: ps[i].1.s in result && result[ps[i].1.s] == ps[i].0)
  }

  lemma {:induction false} ProvidableResolves(table: Table, ps: seq<(string, Scalar)>, providerTag: string)
    requires Providable(table, ps)
    ensures Provide(table, ps, providerTag).Ok?
    ensures Provides(table, ps, Provide(table, ps, providerTag).value)
    decreases |ps|
  {
    if ps != [] {
      var t' := table[ps[0].1.s := ps[0].0];
      forall i | 0 <= i < |ps[1..]| ensures ps[1..][i].1.Str? && ps[1..][i].1.s !in t' {
        assert ps[1..][i] == ps[i + 1];
      }
      forall i, j | 0 <= i < j < |ps[1..]| ensures ps[1..][i].1 != ps[1..][j].1 {
        assert ps[1..][i] == ps[i + 1] && ps[1..][j] == ps[j + 1];
      }
      ProvidableResolves(t', ps[1..], providerTag);
      ProvidesCons(table, ps, Provide(table, ps, providerTag).value);
    }
  }

  /** Providing the first key, then the rest. */
  lemma ProvidesCons(table: Table, ps: seq<(string, Scalar)>, result: Table)
    requires ps != [] && forall i :: 0 <= i < |ps| ==> ps[i].1.Str?
    requires ps[0].1.s !in table
    requires Provides(table[ps[0].1.s := ps[0].0], ps[1..], result)
    ensures Provides(table, ps, result)
  {
    forall key ensures key in result <==> key in table || exists i :: 0 <= i < |ps| && ps[i].1 == Str(key) {
      if exists i :: 0 <= i < |ps[1..]| && ps[1..][i].1 == Str(key) {
        var i :| 0 <= i < |ps[1..]| && ps[1..][i].1 == Str(key);
        assert ps[i + 1].1 == Str(key);
      }
      if exists i :: 0 <= i < |ps| && ps[i].1 == Str(key) {
        var i :| 0 <= i < |ps| && ps[i].1 == Str(key);
        if i > 0 {
          assert ps[1..][i - 1].1 == Str(key);
        }
      }
    }
    forall i | 0 <= i < |ps| ensures ps[i].1.s in result && result[ps[i].1.s] == ps[i].0 {
      if i > 0 {
        assert ps[1..][i - 1] == ps[i];
      }
    }
  }

  lemma {:induction false} ProvidedAreProvidable(table: Table, ps: seq<(string, Scalar)>, providerTag: string)
    requires Provide(table, ps, providerTag).Ok?
    ensures Providable(table, ps)
    decreases |ps|
  {
    if ps != [] {
      var t' := table[ps[0].1.s := ps[0].0];
      ProvidedAreProvidable(t', ps[1..], providerTag);
      forall i | 0 <= i < |ps| ensures ps[i].1.Str? && ps[i].1.s !in table {
        if i > 0 {
          assert ps[1..][i - 1] == ps[i];
        }
      }
      forall i, j | 0 <= i < j < |ps| ensures ps[i].1 != ps[j].1 {
        assert ps[1..][j - 1] == ps[j];
        if i > 0 {
          assert ps[1..][i - 1] == ps[i];
        }
      }
    }
  }

  /**
   * A provider table can be built exactly when every `provides` is a string,
   * none is already taken and no two are the same; the table then maps each
   * key to the service providing it and keeps what it held.
   */
  lemma ProvideSpec(table: Table, ps: seq<(string, Scalar)>, providerTag: string)
    ensures Provide(table, ps, providerTag).Ok? <==> Providable(table, ps)
    ensures Provide(table, ps, providerTag).Ok? ==> Provides(table, ps, Provide(table, ps, providerTag).value)
  {
    if Providable(table, ps) {
      ProvidableResolves(table, ps, providerTag);
    }
    if Provide(table, ps, providerTag).Ok? {
      ProvidedAreProvidable(table, ps, providerTag);
    }
  }

  /** A failure names the offending service's `provides`, or the key and the service already providing it. */
  lemma {:induction false} ProvideErrors(table: Table, ps: seq<(string, Scalar)>, providerTag: string)
    requires Provide(table, ps, providerTag).Err?
    ensures var e := Provide(table, ps, providerTag).error;
      || (exists i :: 0 <= i < |ps| && !ps[i].1.Str? && e == UnexpectedType("provides", StringType, ps[i].0))
      || (e.AlreadyProvided? && e.tag == providerTag && exists i :: 0 <= i < |ps| && ps[i].1 == Str(e.key))
    decreases |ps|
  {
    var e := Provide(table, ps, providerTag).error;
    if ps[0].1.Str? && ps[0].1.s !in table {
      ProvideErrors(table[ps[0].1.s := ps[0].0], ps[1..], providerTag);
      if exists i :: 0 <= i < |ps[1..]| && !ps[1..][i].1.Str? && e == UnexpectedType("provides", StringType, ps[1..][i].0) {
        var i :| 0 <= i < |ps[1..]| && !ps[1..][i].1.Str? && e == UnexpectedType("provides", StringType, ps[1..][i].0);
        assert ps[i + 1] == ps[1..][i];
      } else {
        var i :| 0 <= i < |ps[1..]| && ps[1..][i].1 == Str(e.key);
        assert ps[i + 1] == ps[1..][i];
      }
    } else if ps[0].1.Str? {
      assert ps[0].1 == Str(e.key);
    }
  }

  /** Each provision comes from one occurrence of a tagged service, and each occurrence gives one. */
  lemma {:induction false} AllProvisionsMembers(tagged: seq<(string, seq<Props>)>, sid: string, v: Scalar)
    ensures (sid, v) in AllProvisions(tagged) <==>
      exists k, j :: 0 <= k < |tagged| && 0 <= j < |tagged[k].1| && tagged[k].0 == sid && GetOr(tagged[k].1[j], "provides", Null) == v
    decreases |tagged|
  {
    if tagged != [] {
      AllProvisionsMembers(tagged[1..], sid, v);
      var ps := Provisions(tagged[0].0, tagged[0].1);
      if (sid, v) in ps {
        var j :| 0 <= j < |ps| && ps[j] == (sid, v);
        assert 0 <= j < |tagged[0].1| && tagged[0].0 == sid && GetOr(tagged[0].1[j], "provides", Null) == v;
      } else if (sid, v) in AllProvisions(tagged[1..]) {
        var k, j :| 0 <= k < |tagged[1..]| && 0 <= j < |tagged[1..][k].1| && tagged[1..][k].0 == sid && GetOr(tagged[1..][k].1[j], "provides", Null) == v;
        assert tagged[1..][k] == tagged[k + 1];
      }
      if exists k, j :: 0 <= k < |tagged| && 0 <= j < |tagged[k].1| && tagged[k].0 == sid && GetOr(tagged[k].1[j], "provides", Null) == v {
        var k, j :| 0 <= k < |tagged| && 0 <= j < |tagged[k].1| && tagged[k].0 == sid && GetOr(tagged[k].1[j], "provides", Null) == v;
        if k == 0 {
          assert ps[j] == (sid, v);
        } else {
          assert tagged[1..][k - 1] == tagged[k];
        }
      }
    }
  }

  /**
   * The table built from the services carrying a provider tag maps the key
   * each occurrence provides to the service carrying it, and holds no other key.
   */
  lemma DiscoveredTable(tagged: seq<(string, seq<Props>)>, providerTag: string)
    requires Provide(map[], AllProvisions(tagged), providerTag).Ok?
    ensures var table := Provide(map[], AllProvisions(tagged), providerTag).value;
      && (forall k, j | 0 <= k < |tagged| && 0 <= j < |tagged[k].1| ::
            var v := GetOr(tagged[k].1[j], "provides", Null);
            v.Str? && v.s in table && table[v.s] == tagged[k].0)
      && (forall key | key in table :: exists k, j :: 0 <= k < |tagged| && 0 <= j < |tagged[k].1| && GetOr(tagged[k].1[j], "provides", Null) == Str(key))
  {
    var ps := AllProvisions(tagged);
    ProvideSpec(map[], ps, providerTag);
    var table := Provide(map[], ps, providerTag).value;
    forall k, j | 0 <= k < |tagged| && 0 <= j < |tagged[k].1|
      ensures var v := GetOr(tagged[k].1[j], "provides", Null); v.Str? && v.s in table && table[v.s] == tagged[k].0
    {
      var v := GetOr(tagged[k].1[j], "provides", Null);
      AllProvisionsMembers(tagged, tagged[k].0, v);
      var i :| 0 <= i < |ps| && ps[i] == (tagged[k].0, v);
    }
    forall key | key in table
      ensures exists k, j :: 0 <= k < |tagged| && 0 <= j < |tagged[k].1| && GetOr(tagged[k].1[j], "provides", Null) == Str(key)
    {
      var i :| 0 <= i < |ps| && ps[i].1 == Str(key);
      AllProvisionsMembers(tagged, ps[i].0, ps[i].1);
    }
  }

  /**
   * `ensureProvidersDiscoveredFor`: the table of a provider tag is built once
   * per run, from the services carrying the tag, and there must be some.
   */
  function EnsureProviders(gs: GraphState, providers: map<string, Table>, providerTag: string): Result<map<string, Table>>
  {
    if providerTag in providers then Ok(providers)
    else
      var tagged := gs.TaggedServices(providerTag);
      if tagged == [] then Err(NoProviders(providerTag))
      else
        var table :- Provide(map[], AllProvisions(tagged), providerTag);
        Ok(providers[providerTag := table])
  }

  /**
   * A cached table is reused; otherwise the tag's services must exist and the
   * table built from their `provides` is added, the other tables kept.
   */
  lemma EnsureProvidersSpec(gs: GraphState, providers: map<string, Table>, providerTag: string)
    ensures var r := EnsureProviders(gs, providers, providerTag);
      && (providerTag in providers ==> r == Ok(providers))
      && (r.Ok? ==> providerTag in r.value && forall t | t in providers :: t in r.value && r.value[t] == providers[t])
      && (providerTag !in providers && gs.TaggedServices(providerTag) == [] ==> r == Err(NoProviders(providerTag)))
      && (providerTag !in providers && gs.TaggedServices(providerTag) != [] ==>
            var built := Provide(map[], AllProvisions(gs.TaggedServices(providerTag)), providerTag);
            if built.Ok? then r == Ok(providers[providerTag := built.value]) else r == Err(built.error))
  {
  }

  // ---------------------------------------------------------------------------
  // Linking

  /** The graph and the provider tables built so far in this run. */
  datatype LinkState = LinkState(gs: GraphState, providers: map<string, Table>)

  /** Number of the three sources that are strings. */
  function StringCount(a: Scalar, b: Scalar, c: Scalar): nat {
    (if a.Str? then 1 else 0) + (if b.Str? then 1 else 0) + (if c.Str? then 1 else 0)
  }

  /**
   * `linkDependingOnStrategy`: exactly one of `provider`, `param` and
   * `service` is a string; the resolver's slot receives the provided
   * service, the parameter's value or the named service.
   */
  function StrategyLinked(st: LinkState, sid: string, arg: ArgKey, consumerTag: string, occ: Props): Result<LinkState>
  {
    var key := GetOr(occ, "provider", Null);
    var param := GetOr(occ, "param", Null);
    var service := GetOr(occ, "service", Null);
    if StringCount(key, param, service) != 1 then Err(AmbiguousSource(sid, consumerTag))
    else if key.Str? then
      var providerTag := GetOr(occ, "provider_tag", Null);
      :- AssertValueIsOfType(providerTag, StringType, "provider_tag", sid);
      var providers :- EnsureProviders(st.gs, st.providers, providerTag.s);
      if key.s in providers[providerTag.s] then
        var _ :- st.gs.Find(sid);
        Ok(LinkState(st.gs.SetArgument(sid, arg, Ref(providers[providerTag.s][key.s])), providers))
      else Err(NoServiceProvides(key.s, providerTag.s))
    else if param.Str? then
      var _ :- st.gs.Find(sid);
      if param.s !in st.gs.params then Err(ParameterNotFound(param.s))
      else Ok(st.(gs := st.gs.SetArgument(sid, arg, st.gs.params[param.s])))
    else
      var _ :- st.gs.Find(sid);
      Ok(st.(gs := st.gs.SetArgument(sid, arg, Ref(service.s))))
  }

  /**
   * Exactly one source must be a string; the slot then receives the provided
   * service, the parameter's value or the named service, and nothing else changes.
   * A provider is looked up in the table of its `provider_tag`, built on first
   * use: a `provider_tag` that is not a string, a table that cannot be built
   * and a key the table lacks each fail with their own error.
   */
  lemma StrategySpec(st: LinkState, sid: string, arg: ArgKey, consumerTag: string, occ: Props)
    ensures var r := StrategyLinked(st, sid, arg, consumerTag, occ);
      var (key, param, service) := (GetOr(occ, "provider", Null), GetOr(occ, "param", Null), GetOr(occ, "service", Null));
      && (StringCount(key, param, service) != 1 ==> r == Err(AmbiguousSource(sid, consumerTag)))
      && (r.Ok? ==> StringCount(key, param, service) == 1 && sid in st.gs.defs)
      && (r.Ok? && key.Str? ==>
            && GetOr(occ, "provider_tag", Null).Str?
            && var ptag := occ["provider_tag"].s;
            && ptag in r.value.providers && key.s in r.value.providers[ptag]
            && r.value.gs == st.gs.SetArgument(sid, arg, Ref(r.value.providers[ptag][key.s])))
      && (r.Ok? && key.Str? ==>
            && GetOr(occ, "provider_tag", Null).Str?
            && EnsureProviders(st.gs, st.providers, GetOr(occ, "provider_tag", Null).s).Ok?
            && r.value.providers == EnsureProviders(st.gs, st.providers, GetOr(occ, "provider_tag", Null).s).value)
      && (StringCount(key, param, service) == 1 && key.Str? && !GetOr(occ, "provider_tag", Null).Str? ==>
            r == Err(UnexpectedType("provider_tag", StringType, sid)))
      && (StringCount(key, param, service) == 1 && key.Str? && GetOr(occ, "provider_tag", Null).Str? ==>
            var ptag := GetOr(occ, "provider_tag", Null).s;
            var tables := EnsureProviders(st.gs, st.providers, ptag);
            && (tables.Err? ==> r == Err(tables.error))
            && (tables.Ok? ==> ptag in tables.value)
            && (tables.Ok? && key.s !in tables.value[ptag] ==> r == Err(NoServiceProvides(key.s, ptag)))
            && (tables.Ok? && key.s in tables.value[ptag] && sid !in st.gs.defs ==> r == Err(ServiceNotFound(sid)))
            && (tables.Ok? && key.s in tables.value[ptag] && sid in st.gs.defs ==>
                  r == Ok(LinkState(st.gs.SetArgument(sid, arg, Ref(tables.value[ptag][key.s])), tables.value))))
      && (r.Ok? && param.Str? ==> param.s in st.gs.params && r.value == st.(gs := st.gs.SetArgument(sid, arg, st.gs.params[param.s])))
      && (r.Ok? && service.Str? ==> r.value == st.(gs := st.gs.SetArgument(sid, arg, Ref(service.s))))
      && (r.Err? && param.Str? && StringCount(key, param, service) == 1 && sid in st.gs.defs ==> r.error == ParameterNotFound(param.s))
  {
    var ptag := GetOr(occ, "provider_tag", Null);
    if ptag.Str? {
      EnsureProvidersSpec(st.gs, st.providers, ptag.s);
    }
  }

  /** `linkService`: every service carrying the resolver tag, in declaration order. */
  function ResolversLinked(st: LinkState, arg: ArgKey, consumerTag: string, tagged: seq<(string, seq<Props>)>): Result<LinkState>
    decreases |tagged|
  {
    if tagged == [] then Ok(st)
    else
      var st' :- ResolverLinked(st, arg, consumerTag, tagged[0].0, tagged[0].1);
      ResolversLinked(st', arg, consumerTag, tagged[1..])
  }

  /** Linking through a non-empty list of resolvers: the first one, then the rest from where it left off. */
  lemma ResolversLinkedCons(st: LinkState, arg: ArgKey, consumerTag: string, tagged: seq<(string, seq<Props>)>)
    requires tagged != []
    ensures ResolversLinked(st, arg, consumerTag, tagged) ==
      match ResolverLinked(st, arg, consumerTag, tagged[0].0, tagged[0].1)
      case Ok(st') => ResolversLinked(st', arg, consumerTag, tagged[1..])
      case Err(e) => Err(e)
  {
  }

  /** The loop step of `linkService`: a failing resolver ends the loop with its error, a passing one hands on its state. */
  lemma ResolversLinkedStep(cur: LinkState, arg: ArgKey, consumerTag: string, tagged: seq<(string, seq<Props>)>, i: nat,
                            r: Status, gs: GraphState, providers: map<string, Table>)
    requires i < |tagged|
    requires ReflectsLink(r, ResolverLinked(cur, arg, consumerTag, tagged[i].0, tagged[i].1), gs, providers)
    ensures r.Fail? ==> ReflectsLink(r, ResolversLinked(cur, arg, consumerTag, tagged[i..]), gs, providers)
    ensures r.Pass? ==> ResolversLinked(cur, arg, consumerTag, tagged[i..]) == ResolversLinked(LinkState(gs, providers), arg, consumerTag, tagged[i + 1..])
  {
    assert tagged[i..][1..] == tagged[i + 1..];
    ResolversLinkedCons(cur, arg, consumerTag, tagged[i..]);
  }

  /** One service carrying the resolver tag: it must be defined, concrete and carry the tag exactly once. */
  function ResolverLinked(st: LinkState, arg: ArgKey, consumerTag: string, sid: string, occs: seq<Props>): Result<LinkState> {
    var d :- st.gs.Find(sid);
    :- AssertDefinitionIsNotAbstract(d, sid);
    :- AssertOnlyOneTagPerService(occs, consumerTag, sid);
    StrategyLinked(st, sid, arg, consumerTag, occs[0])
  }

  /**
   * A resolver links only when it is defined, concrete and tagged once, and
   * then as its one occurrence's strategy says; the three checks fail in
   * that order.
   */
  lemma ResolverLinkedSpec(st: LinkState, arg: ArgKey, consumerTag: string, sid: string, occs: seq<Props>)
    ensures var r := ResolverLinked(st, arg, consumerTag, sid, occs);
      && (r.Ok? ==> sid in st.gs.defs && !st.gs.defs[sid].isAbstract && |occs| == 1)
      && (r.Ok? ==> r == StrategyLinked(st, sid, arg, consumerTag, occs[0]))
      && (sid !in st.gs.defs ==> r == Err(ServiceNotFound(sid)))
      && (sid in st.gs.defs && st.gs.defs[sid].isAbstract ==> r == Err(ExpectedNonAbstract(sid)))
      && (sid in st.gs.defs && !st.gs.defs[sid].isAbstract && |occs| != 1 ==> r == Err(MultipleTags(sid, consumerTag)))
  {
  }

  /** Direct mode: the consumer's own slot receives the provided service. */
  function LinkDirect(st: LinkState, sid: string, arg: ArgKey, occ: Props): (r: Result<LinkState>)
    requires IsSet(occ, "provider_tag")
    ensures r.Ok? ==>
      && occ["provider_tag"].Str? && GetOr(occ, "provider", Null).Str?
      && var (ptag, key) := (occ["provider_tag"].s, occ["provider"].s);
      && ptag in r.value.providers && key in r.value.providers[ptag] && sid in st.gs.defs
      && r.value.gs == st.gs.SetArgument(sid, arg, Ref(r.value.providers[ptag][key]))
    ensures r.Err? && occ["provider_tag"].Str? && GetOr(occ, "provider", Null).Str? && EnsureProviders(st.gs, st.providers, occ["provider_tag"].s).Ok? && sid in st.gs.defs ==>
      r.error == NoServiceProvides(occ["provider"].s, occ["provider_tag"].s)
    ensures r.Ok? && occ["provider_tag"].Str? ==>
      && EnsureProviders(st.gs, st.providers, occ["provider_tag"].s).Ok?
      && r.value.providers == EnsureProviders(st.gs, st.providers, occ["provider_tag"].s).value
    ensures !occ["provider_tag"].Str? ==> r == Err(UnexpectedType("provider_tag", StringType, sid))
    ensures occ["provider_tag"].Str? ==>
      var (ptag, key) := (occ["provider_tag"].s, GetOr(occ, "provider", Null));
      var tables := EnsureProviders(st.gs, st.providers, ptag);
      && (tables.Err? ==> r == Err(tables.error))
      && (tables.Ok? && !key.Str? ==> r == Err(UnexpectedType("provider", StringType, sid)))
      && (tables.Ok? ==> ptag in tables.value)
      && (tables.Ok? && key.Str? && key.s !in tables.value[ptag] ==> r == Err(NoServiceProvides(key.s, ptag)))
      && (tables.Ok? && key.Str? && key.s in tables.value[ptag] && sid !in st.gs.defs ==> r == Err(ServiceNotFound(sid)))
      && (tables.Ok? && key.Str? && key.s in tables.value[ptag] && sid in st.gs.defs ==>
            r == Ok(LinkState(st.gs.SetArgument(sid, arg, Ref(tables.value[ptag][key.s])), tables.value)))
  {
    var providerTag := occ["provider_tag"];
    :- AssertValueIsOfType(providerTag, StringType, "provider_tag", sid);
    EnsureProvidersSpec(st.gs, st.providers, providerTag.s);
    var providers :- EnsureProviders(st.gs, st.providers, providerTag.s);
    var key := GetOr(occ, "provider", Null);
    :- AssertValueIsOfType(key, StringType, "provider", sid);
    if key.s in providers[providerTag.s] then
      var _ :- st.gs.Find(sid);
      Ok(LinkState(st.gs.SetArgument(sid, arg, Ref(providers[providerTag.s][key.s])), providers))
    else Err(NoServiceProvides(key.s, providerTag.s))
  }

  /** Links one declared slot: directly when `provider_tag` is set, otherwise through the resolver tag. */
  function ArgumentLinked(st: LinkState, sid: string, arg: ArgKey, occ: Props): Result<LinkState> {
    if IsSet(occ, "provider_tag") then LinkDirect(st, sid, arg, occ)
    else
      var resolverTag := GetOr(occ, "argument_resolver_tag", Null);
      :- AssertValueIsOfType(resolverTag, StringType, "argument_resolver_tag", sid);
      ResolversLinked(st, arg, resolverTag.s, st.gs.TaggedServices(resolverTag.s))
  }

  /** The slot an occurrence of the pass tag names: `argument`, 0 when absent. */
  function ArgumentOf(occ: Props): Scalar {
    GetOr(occ, "argument", Int(0))
  }

  /**
   * One slot of a consumer: skipped when an earlier run linked it, otherwise
   * marked as processed first, then linked. Only argument slots change, and
   * the slot's marker is in the processed set afterwards.
   */
  function SlotLinked(st: LinkState, sid: string, arg: ArgKey, occ: Props, key: string): (r: Result<LinkState>)
    requires key in st.gs.store.sets
    ensures Marker(sid, arg) in st.gs.store.sets[key] ==> r == Ok(st)
    ensures r.Ok? ==>
      && OnlySlotsChange(st.gs, r.value.gs)
      && r.value.gs.store == st.gs.store.(sets := st.gs.store.sets[key := st.gs.store.sets[key] + {Marker(sid, arg)}])
  {
    var sets := st.gs.store.sets;
    if Marker(sid, arg) in sets[key] then
      assert sets[key] + {Marker(sid, arg)} == sets[key];
      assert sets[key := sets[key]] == sets;
      Ok(st)
    else
      var marked := st.(gs := st.gs.MarkProcessed(key, Marker(sid, arg)));
      var st' :- ArgumentLinked(marked, sid, arg, occ);
      LinkOneFrame(marked, sid, arg, occ);
      Ok(st')
  }

  /**
   * `linkServices`: the occurrences of one consumer in order; each names an
   * int or string slot, and a slot named twice fails.
   */
  function SlotsLinked(st: LinkState, sid: string, occs: seq<Props>, existing: set<ArgKey>, key: string): Result<LinkState>
    requires key in st.gs.store.sets
    decreases |occs|
  {
    if occs == [] then Ok(st)
    else
      :- AssertValueIsOfType(ArgumentOf(occs[0]), ArgumentTypes, "argument", sid);
      var arg := ToArgKey(ArgumentOf(occs[0]));
      if arg in existing then Err(ArgumentAlreadyDefined(arg, sid))
      else
        var st' :- SlotLinked(st, sid, arg, occs[0], key);
        SlotsLinked(st', sid, occs[1..], existing + {arg}, key)
  }

  /** The consumers in order. */
  function LinkAll(st: LinkState, tagged: seq<(string, seq<Props>)>, key: string): Result<LinkState>
    requires key in st.gs.store.sets
    decreases |tagged|
  {
    if tagged == [] then Ok(st)
    else
      var st' :- SlotsLinked(st, tagged[0].0, tagged[0].1, {}, key);
      LinkServicesMarks(st, tagged[0].0, tagged[0].1, {}, key);
      LinkAll(st', tagged[1..], key)
  }

  /** `process`: gets or creates the processed set, then links every consumer with fresh provider tables. */
  function Link(gs: GraphState, tag: string): Result<GraphState> {
    var gs1 := gs.EnsureSet(LinkedKey(tag));
    var st :- LinkAll(LinkState(gs1, map[]), gs1.TaggedServices(tag), LinkedKey(tag));
    Ok(st.gs)
  }

  // ---------------------------------------------------------------------------
  // What linking changes

  /** Only argument slots and the store may differ: ids, classes, calls, tags and aliases stay. */
  ghost predicate OnlySlotsChange(gs: GraphState, gs': GraphState) {
    && gs'.ids == gs.ids && gs'.aliases == gs.aliases && gs'.params == gs.params
    && (forall id :: id in gs'.defs <==> id in gs.defs)
    && (forall id | id in gs.defs :: gs'.defs[id] == gs.defs[id].(args := gs'.defs[id].args))
  }

  lemma OnlySlotsChangeTrans(a: GraphState, b: GraphState, c: GraphState)
    requires OnlySlotsChange(a, b) && OnlySlotsChange(b, c)
    ensures OnlySlotsChange(a, c)
  {
  }

  lemma {:induction false} LinkServiceFrame(st: LinkState, arg: ArgKey, consumerTag: string, tagged: seq<(string, seq<Props>)>)
    requires ResolversLinked(st, arg, consumerTag, tagged).Ok?
    ensures var st' := ResolversLinked(st, arg, consumerTag, tagged).value;
      OnlySlotsChange(st.gs, st'.gs) && st'.gs.store == st.gs.store
    decreases |tagged|
  {
    if tagged != [] {
      ResolverLinkedSpec(st, arg, consumerTag, tagged[0].0, tagged[0].1);
      var st' := StrategyLinked(st, tagged[0].0, arg, consumerTag, tagged[0].1[0]).value;
      StrategyFrame(st, tagged[0].0, arg, consumerTag, tagged[0].1[0]);
      LinkServiceFrame(st', arg, consumerTag, tagged[1..]);
    }
  }

  lemma StrategyFrame(st: LinkState, sid: string, arg: ArgKey, consumerTag: string, occ: Props)
    requires StrategyLinked(st, sid, arg, consumerTag, occ).Ok?
    ensures var st' := StrategyLinked(st, sid, arg, consumerTag, occ).value;
      OnlySlotsChange(st.gs, st'.gs) && st'.gs.store == st.gs.store
  {
    var st' := StrategyLinked(st, sid, arg, consumerTag, occ).value;
    StrategySpec(st, sid, arg, consumerTag, occ);
    var v :| st'.gs == st.gs.SetArgument(sid, arg, v);
    SetArgumentOnlySlots(st.gs, sid, arg, v);
  }

  /** Setting one argument is a slot change. */
  lemma SetArgumentOnlySlots(gs: GraphState, id: string, arg: ArgKey, v: ArgValue)
    requires id in gs.defs
    ensures OnlySlotsChange(gs, gs.SetArgument(id, arg, v)) && gs.SetArgument(id, arg, v).store == gs.store
  {
  }

  lemma LinkOneFrame(st: LinkState, sid: string, arg: ArgKey, occ: Props)
    requires ArgumentLinked(st, sid, arg, occ).Ok?
    ensures OnlySlotsChange(st.gs, ArgumentLinked(st, sid, arg, occ).value.gs) && ArgumentLinked(st, sid, arg, occ).value.gs.store == st.gs.store
  {
    if !IsSet(occ, "provider_tag") {
      var resolverTag := GetOr(occ, "argument_resolver_tag", Null);
      LinkServiceFrame(st, arg, resolverTag.s, st.gs.TaggedServices(resolverTag.s));
    }
  }

  // ---------------------------------------------------------------------------
  // Processed slots and re-runs

  /** Every occurrence names an int or string slot, none in `existing`, no two the same. */
  ghost predicate Declared(occs: seq<Props>, existing: set<ArgKey>) {
    && (forall k :: 0 <= k < |occs| ==> TypeOf(ArgumentOf(occs[k])) in ArgumentTypes)
    && (forall k :: 0 <= k < |occs| ==> ToArgKey(ArgumentOf(occs[k])) !in existing)
    && (forall i, j :: 0 <= i < j < |occs| ==> ToArgKey(ArgumentOf(occs[i])) != ToArgKey(ArgumentOf(occs[j])))
  }

  /** The markers of the slots the occurrences name. */
  ghost function Markers(sid: string, occs: seq<Props>): set<Processed> {
    set k | 0 <= k < |occs| && TypeOf(ArgumentOf(occs[k])) in ArgumentTypes :: Marker(sid, ToArgKey(ArgumentOf(occs[k])))
  }

  lemma MarkersCons(sid: string, occs: seq<Props>)
    requires occs != [] && TypeOf(ArgumentOf(occs[0])) in ArgumentTypes
    ensures Markers(sid, occs) == {Marker(sid, ToArgKey(ArgumentOf(occs[0])))} + Markers(sid, occs[1..])
  {
    forall m | m in Markers(sid, occs) ensures m in {Marker(sid, ToArgKey(ArgumentOf(occs[0])))} + Markers(sid, occs[1..]) {
      var k :| 0 <= k < |occs| && TypeOf(ArgumentOf(occs[k])) in ArgumentTypes && m == Marker(sid, ToArgKey(ArgumentOf(occs[k])));
      if k > 0 {
        assert occs[1..][k - 1] == occs[k];
      }
    }
    forall m | m in Markers(sid, occs[1..]) ensures m in Markers(sid, occs) {
      var k :| 0 <= k < |occs[1..]| && TypeOf(ArgumentOf(occs[1..][k])) in ArgumentTypes && m == Marker(sid, ToArgKey(ArgumentOf(occs[1..][k])));
      assert occs[1..][k] == occs[k + 1];
    }
  }

  lemma DeclaredTail(occs: seq<Props>, existing: set<ArgKey>)
    requires occs != [] && Declared(occs, existing)
    ensures Declared(occs[1..], existing + {ToArgKey(ArgumentOf(occs[0]))})
  {
    forall k | 0 <= k < |occs[1..]| ensures ToArgKey(ArgumentOf(occs[1..][k])) != ToArgKey(ArgumentOf(occs[0])) {
      assert occs[1..][k] == occs[k + 1];
    }
    forall i, j | 0 <= i < j < |occs[1..]| ensures ToArgKey(ArgumentOf(occs[1..][i])) != ToArgKey(ArgumentOf(occs[1..][j])) {
      assert occs[1..][i] == occs[i + 1] && occs[1..][j] == occs[j + 1];
    }
  }

  lemma DeclaredCons(occs: seq<Props>, existing: set<ArgKey>)
    requires occs != []
    requires TypeOf(ArgumentOf(occs[0])) in ArgumentTypes && ToArgKey(ArgumentOf(occs[0])) !in existing
    requires Declared(occs[1..], existing + {ToArgKey(ArgumentOf(occs[0]))})
    ensures Declared(occs, existing)
  {
    forall k | 0 <= k < |occs| ensures TypeOf(ArgumentOf(occs[k])) in ArgumentTypes && ToArgKey(ArgumentOf(occs[k])) !in existing {
      if k > 0 {
        assert occs[1..][k - 1] == occs[k];
      }
    }
    forall i, j | 0 <= i < j < |occs| ensures ToArgKey(ArgumentOf(occs[i])) != ToArgKey(ArgumentOf(occs[j])) {
      assert occs[1..][j - 1] == occs[j];
      if i > 0 {
        assert occs[1..][i - 1] == occs[i];
      }
    }
  }

  /**
   * Linking one consumer succeeds only for distinct int or string slots;
   * afterwards every slot it names is in the processed set, which gained
   * nothing else, and only argument slots changed.
   */
  lemma {:induction false} LinkServicesMarks(st: LinkState, sid: string, occs: seq<Props>, existing: set<ArgKey>, key: string)
    requires key in st.gs.store.sets
    requires SlotsLinked(st, sid, occs, existing, key).Ok?
    ensures Declared(occs, existing)
    ensures var st' := SlotsLinked(st, sid, occs, existing, key).value;
      && OnlySlotsChange(st.gs, st'.gs)
      && st'.gs.store == st.gs.store.(sets := st.gs.store.sets[key := st.gs.store.sets[key] + Markers(sid, occs)])
    decreases |occs|
  {
    var sets := st.gs.store.sets;
    if occs == [] {
      assert Markers(sid, occs) == {};
      assert sets[key] + {} == sets[key];
      assert sets[key := sets[key]] == sets;
    } else {
      var arg := ToArgKey(ArgumentOf(occs[0]));
      var next := SlotLinked(st, sid, arg, occs[0], key).value;
      LinkServicesMarks(next, sid, occs[1..], existing + {arg}, key);
      DeclaredCons(occs, existing);
      MarkersCons(sid, occs);
      OnlySlotsChangeTrans(st.gs, next.gs, SlotsLinked(next, sid, occs[1..], existing + {arg}, key).value.gs);
      StoreUnion(st.gs.store, key, {Marker(sid, arg)}, Markers(sid, occs[1..]));
    }
  }

  lemma StoreUnion(s: Store, key: string, a: set<Processed>, b: set<Processed>)
    requires key in s.sets
    ensures var s1 := s.(sets := s.sets[key := s.sets[key] + a]);
      s1.(sets := s1.sets[key := s1.sets[key] + b]) == s.(sets := s.sets[key := s.sets[key] + (a + b)])
  {
    assert s.sets[key] + a + b == s.sets[key] + (a + b);
  }

  /** A consumer whose slots are all already processed is skipped entirely. */
  lemma {:induction false} LinkServicesSkips(st: LinkState, sid: string, occs: seq<Props>, existing: set<ArgKey>, key: string)
    requires key in st.gs.store.sets
    requires Declared(occs, existing)
    requires Markers(sid, occs) <= st.gs.store.sets[key]
    ensures SlotsLinked(st, sid, occs, existing, key) == Ok(st)
    decreases |occs|
  {
    if occs != [] {
      MarkersCons(sid, occs);
      DeclaredTail(occs, existing);
      LinkServicesSkips(st, sid, occs[1..], existing + {ToArgKey(ArgumentOf(occs[0]))}, key);
    }
  }

  /** Each consumer's slots are distinct and processed; the processed set only grew. */
  ghost predicate AllMarked(tagged: seq<(string, seq<Props>)>, processed: set<Processed>) {
    forall e | e in tagged :: Declared(e.1, {}) && Markers(e.0, e.1) <= processed
  }

  /**
   * Linking every consumer changes only argument slots and leaves every slot
   * it was asked to link in the processed set.
   */
  lemma {:induction false} LinkAllMarks(st: LinkState, tagged: seq<(string, seq<Props>)>, key: string)
    requires key in st.gs.store.sets
    requires LinkAll(st, tagged, key).Ok?
    ensures var st' := LinkAll(st, tagged, key).value;
      && OnlySlotsChange(st.gs, st'.gs)
      && key in st'.gs.store.sets && st.gs.store.sets[key] <= st'.gs.store.sets[key]
      && AllMarked(tagged, st'.gs.store.sets[key])
    decreases |tagged|
  {
    if tagged != [] {
      var next := SlotsLinked(st, tagged[0].0, tagged[0].1, {}, key).value;
      LinkServicesMarks(st, tagged[0].0, tagged[0].1, {}, key);
      LinkAllMarks(next, tagged[1..], key);
      var st' := LinkAll(st, tagged, key).value;
      assert st' == LinkAll(next, tagged[1..], key).value;
      OnlySlotsChangeTrans(st.gs, next.gs, st'.gs);
    }
  }

  lemma {:induction false} LinkAllSkips(st: LinkState, tagged: seq<(string, seq<Props>)>, key: string)
    requires key in st.gs.store.sets
    requires AllMarked(tagged, st.gs.store.sets[key])
    ensures LinkAll(st, tagged, key) == Ok(st)
    decreases |tagged|
  {
    if tagged != [] {
      LinkServicesSkips(st, tagged[0].0, tagged[0].1, {}, key);
      LinkAllSkips(st, tagged[1..], key);
    }
  }

  /**
   * Running the linker again on its own output changes nothing: every slot
   * it linked is processed and skipped, and the tags it reads are unchanged.
   */
  lemma LinkIdempotent(gs: GraphState, tag: string)
    requires Link(gs, tag).Ok?
    ensures Link(Link(gs, tag).value, tag) == Link(gs, tag)
  {
    var key := LinkedKey(tag);
    var gs1 := gs.EnsureSet(key);
    var tagged := gs1.TaggedServices(tag);
    var st' := LinkAll(LinkState(gs1, map[]), tagged, key).value;
    LinkAllMarks(LinkState(gs1, map[]), tagged, key);
    var gs' := st'.gs;
    TaggedInSameTags(gs1.ids, gs1.defs, gs'.defs, tag);
    assert gs'.EnsureSet(key) == gs';
    assert gs'.TaggedServices(tag) == tagged;
    LinkAllSkips(LinkState(gs', map[]), tagged, key);
  }

  /**
   * A slot named twice on one consumer fails the run; when the slots before
   * the second naming link, the error is "Argument A already defined on
   * service S".
   */
  lemma DuplicateSlotFails(st: LinkState, sid: string, occs: seq<Props>, key: string, i: int, j: int)
    requires key in st.gs.store.sets
    requires 0 <= i < j < |occs|
    requires TypeOf(ArgumentOf(occs[i])) in ArgumentTypes && TypeOf(ArgumentOf(occs[j])) in ArgumentTypes
    requires ToArgKey(ArgumentOf(occs[i])) == ToArgKey(ArgumentOf(occs[j]))
    ensures SlotsLinked(st, sid, occs, {}, key).Err?
    ensures SlotsLinked(st, sid, occs[..j], {}, key).Ok? ==>
      SlotsLinked(st, sid, occs, {}, key) == Err(ArgumentAlreadyDefined(ToArgKey(ArgumentOf(occs[j])), sid))
  {
    if SlotsLinked(st, sid, occs, {}, key).Ok? {
      LinkServicesMarks(st, sid, occs, {}, key);
    }
    if SlotsLinked(st, sid, occs[..j], {}, key).Ok? {
      SlotAlreadyDefined(st, sid, occs, {}, key, j);
    }
  }

  /**
   * Occurrence `j` names a slot already taken, by `existing` or by an earlier
   * occurrence; when the occurrences before it link, the run fails there.
   */
  lemma {:induction false} SlotAlreadyDefined(st: LinkState, sid: string, occs: seq<Props>, existing: set<ArgKey>, key: string, j: int)
    requires key in st.gs.store.sets
    requires 0 <= j < |occs| && TypeOf(ArgumentOf(occs[j])) in ArgumentTypes
    requires ToArgKey(ArgumentOf(occs[j])) in existing ||
      exists i :: 0 <= i < j && TypeOf(ArgumentOf(occs[i])) in ArgumentTypes && ToArgKey(ArgumentOf(occs[i])) == ToArgKey(ArgumentOf(occs[j]))
    requires SlotsLinked(st, sid, occs[..j], existing, key).Ok?
    ensures SlotsLinked(st, sid, occs, existing, key) == Err(ArgumentAlreadyDefined(ToArgKey(ArgumentOf(occs[j])), sid))
    decreases j
  {
    var arg := ToArgKey(ArgumentOf(occs[j]));
    if j > 0 {
      var pre := occs[..j];
      assert pre[0] == occs[0] && pre[1..] == occs[1..][..j - 1];
      var arg0 := ToArgKey(ArgumentOf(occs[0]));
      var st' := SlotLinked(st, sid, arg0, occs[0], key).value;
      assert occs[1..][j - 1] == occs[j];
      if arg !in existing + {arg0} {
        var i :| 0 <= i < j && TypeOf(ArgumentOf(occs[i])) in ArgumentTypes && ToArgKey(ArgumentOf(occs[i])) == arg;
        assert occs[1..][i - 1] == occs[i];
      }
      SlotAlreadyDefined(st', sid, occs[1..], existing + {arg0}, key, j - 1);
    }
  }

  // ---------------------------------------------------------------------------
  // The pass object

  /** A step that ran with the graph now in state `gs` and the tables `providers` did what `spec` says. */
  ghost predicate ReflectsLink(r: Status, spec: Result<LinkState>, gs: GraphState, providers: map<string, Table>) {
    match spec
    case Ok(s) => r.Pass? && gs == s.gs && providers == s.providers
    case Err(e) => r == Fail(e)
  }

  /** `discoverProvidersFromTags`: adds the keys one provider service provides. */
  method DiscoverProvidersFromTags(table: Table, occs: seq<Props>, providerTag: string, sid: string) returns (r: Result<Table>)
    ensures r == Provide(table, Provisions(sid, occs), providerTag)
  {
    var t := table;
    var i := 0;
    while i < |occs|
      invariant 0 <= i <= |occs|
      invariant Provide(table, Provisions(sid, occs), providerTag) == Provide(t, Provisions(sid, occs[i..]), providerTag)
    {
      assert occs[i..][1..] == occs[i + 1..];
      var key := GetOr(occs[i], "provides", Null);
      if !key.Str? {
        return Err(UnexpectedType("provides", StringType, sid));
      }
      if key.s in t {
        return Err(AlreadyProvided(t[key.s], key.s, providerTag));
      }
      t := t[key.s := sid];
      i := i + 1;
    }
    r := Ok(t);
  }

  class ServiceLinkerPass {
    const tag: string
    var providers: map<string, Table>

    constructor (tag: string)
      ensures this.tag == tag && providers == map[]
    {
      this.tag := tag;
      providers := map[];
    }

    /** `process`: the graph ends up as the specification says, or the run fails with its error; the tables are dropped either way. */
    method Process(g: Graph) returns (r: Status)
      modifies this, g
      ensures Reflects(r, Link(old(g.State()), tag), g.State())
      ensures providers == map[]
    {
      providers := map[];
      var key := LinkedKey(tag);
      if key !in g.store.sets {
        g.SetStore(g.store.(sets := g.store.sets[key := {}]));
      }
      assert g.State() == old(g.State()).EnsureSet(key);
      r := LinkConsumers(g, g.State().TaggedServices(tag));
      providers := map[];
    }

    /** The loop of `process`: every service carrying the pass tag, in declaration order. */
    method LinkConsumers(g: Graph, tagged: seq<(string, seq<Props>)>) returns (r: Status)
      requires LinkedKey(tag) in g.store.sets
      modifies this, g
      ensures ReflectsLink(r, LinkAll(old(LinkState(g.State(), providers)), tagged, LinkedKey(tag)), g.State(), providers)
    {
      var key := LinkedKey(tag);
      ghost var start := LinkState(g.State(), providers);
      var i := 0;
      while i < |tagged|
        invariant 0 <= i <= |tagged|
        invariant key in g.store.sets
        invariant LinkAll(start, tagged, key) == LinkAll(LinkState(g.State(), providers), tagged[i..], key)
      {
        assert tagged[i..][1..] == tagged[i + 1..];
        ghost var before := LinkState(g.State(), providers);
        r := LinkServices(g, tagged[i].0, tagged[i].1);
        if r.Fail? {
          return;
        }
        LinkServicesMarks(before, tagged[i].0, tagged[i].1, {}, key);
        i := i + 1;
      }
      r := Pass;
    }

    /** `linkServices`: the slots one consumer declares, in order. */
    method LinkServices(g: Graph, sid: string, occs: seq<Props>) returns (r: Status)
      requires LinkedKey(tag) in g.store.sets
      modifies this, g
      ensures ReflectsLink(r, SlotsLinked(old(LinkState(g.State(), providers)), sid, occs, {}, LinkedKey(tag)), g.State(), providers)
    {
      var key := LinkedKey(tag);
      var existing: set<ArgKey> := {};
      var i := 0;
      while i < |occs|
        invariant 0 <= i <= |occs|
        invariant key in g.store.sets
        invariant SlotsLinked(old(LinkState(g.State(), providers)), sid, occs, {}, key)
          == SlotsLinked(LinkState(g.State(), providers), sid, occs[i..], existing, key)
      {
        assert occs[i..][1..] == occs[i + 1..];
        var argument := ArgumentOf(occs[i]);
        if !(argument.Int? || argument.Str?) {
          return Fail(UnexpectedType("argument", ArgumentTypes, sid));
        }
        var arg := ToArgKey(argument);
        if arg in existing {
          return Fail(ArgumentAlreadyDefined(arg, sid));
        }
        existing := existing + {arg};
        r := LinkSlot(g, sid, arg, occs[i]);
        if r.Fail? {
          return;
        }
        i := i + 1;
      }
      r := Pass;
    }

    /** One slot of `linkServices`: skipped when already linked, otherwise marked as processed and then linked. */
    method LinkSlot(g: Graph, sid: string, arg: ArgKey, occ: Props) returns (r: Status)
      requires LinkedKey(tag) in g.store.sets
      modifies this, g
      ensures ReflectsLink(r, SlotLinked(old(LinkState(g.State(), providers)), sid, arg, occ, LinkedKey(tag)), g.State(), providers)
    {
      var key := LinkedKey(tag);
      if Marker(sid, arg) in g.store.sets[key] {
        return Pass;
      }
      g.SetStore(g.store.(sets := g.store.sets[key := g.store.sets[key] + {Marker(sid, arg)}]));
      r := LinkOne(g, sid, arg, occ);
    }

    /** Links one new slot: the direct branch of `linkServices`, or `linkService` through the resolver tag. */
    method LinkOne(g: Graph, sid: string, arg: ArgKey, occ: Props) returns (r: Status)
      modifies this, g
      ensures ReflectsLink(r, ArgumentLinked(old(LinkState(g.State(), providers)), sid, arg, occ), g.State(), providers)
    {
      if IsSet(occ, "provider_tag") {
        var providerTag := occ["provider_tag"];
        if !providerTag.Str? {
          return Fail(UnexpectedType("provider_tag", StringType, sid));
        }
        r := EnsureProvidersDiscoveredFor(g, providerTag.s);
        if r.Fail? {
          return;
        }
        var provider := GetOr(occ, "provider", Null);
        if !provider.Str? {
          return Fail(UnexpectedType("provider", StringType, sid));
        }
        if provider.s !in providers[providerTag.s] {
          return Fail(NoServiceProvides(provider.s, providerTag.s));
        }
        if sid !in g.defs {
          return Fail(ServiceNotFound(sid));
        }
        g.SetArgument(sid, arg, Ref(providers[providerTag.s][provider.s]));
        return Pass;
      }
      var resolverTag := GetOr(occ, "argument_resolver_tag", Null);
      if !resolverTag.Str? {
        return Fail(UnexpectedType("argument_resolver_tag", StringType, sid));
      }
      r := LinkService(g, arg, resolverTag.s);
    }

    /** `linkService`: every service carrying the resolver tag, in declaration order. */
    method LinkService(g: Graph, arg: ArgKey, consumerTag: string) returns (r: Status)
      modifies this, g
      ensures ReflectsLink(r, ResolversLinked(old(LinkState(g.State(), providers)), arg, consumerTag, old(g.State()).TaggedServices(consumerTag)), g.State(), providers)
    {
      var tagged := g.State().TaggedServices(consumerTag);
      var i := 0;
      while i < |tagged|
        invariant 0 <= i <= |tagged|
        invariant ResolversLinked(old(LinkState(g.State(), providers)), arg, consumerTag, tagged)
          == ResolversLinked(LinkState(g.State(), providers), arg, consumerTag, tagged[i..])
      {
        ghost var cur := LinkState(g.State(), providers);
        r := LinkResolver(g, arg, consumerTag, tagged[i].0, tagged[i].1);
        ResolversLinkedStep(cur, arg, consumerTag, tagged, i, r, g.State(), providers);
        if r.Fail? {
          return;
        }
        i := i + 1;
      }
      r := Pass;
    }

    /** One iteration of `linkService`: the resolver must be defined, concrete and tagged once. */
    method LinkResolver(g: Graph, arg: ArgKey, consumerTag: string, sid: string, occs: seq<Props>) returns (r: Status)
      modifies this, g
      ensures ReflectsLink(r, ResolverLinked(old(LinkState(g.State(), providers)), arg, consumerTag, sid, occs), g.State(), providers)
    {
      if sid !in g.defs {
        return Fail(ServiceNotFound(sid));
      }
      if g.defs[sid].isAbstract {
        return Fail(ExpectedNonAbstract(sid));
      }
      if |occs| != 1 {
        return Fail(MultipleTags(sid, consumerTag));
      }
      r := LinkDependingOnStrategy(g, sid, arg, consumerTag, occs);
    }

    /** `linkDependingOnStrategy`: fills the resolver's slot from its one source. */
    method LinkDependingOnStrategy(g: Graph, sid: string, arg: ArgKey, consumerTag: string, occs: seq<Props>) returns (r: Status)
      requires |occs| == 1
      modifies this, g
      ensures ReflectsLink(r, StrategyLinked(old(LinkState(g.State(), providers)), sid, arg, consumerTag, occs[0]), g.State(), providers)
    {
      var key := GetOr(occs[0], "provider", Null);
      var param := GetOr(occs[0], "param", Null);
      var service := GetOr(occs[0], "service", Null);
      if StringCount(key, param, service) != 1 {
        return Fail(AmbiguousSource(sid, consumerTag));
      }
      if key.Str? {
        var providerTag := GetOr(occs[0], "provider_tag", Null);
        if !providerTag.Str? {
          return Fail(UnexpectedType("provider_tag", StringType, sid));
        }
        r := EnsureProvidersDiscoveredFor(g, providerTag.s);
        if r.Fail? {
          return;
        }
        if key.s !in providers[providerTag.s] {
          return Fail(NoServiceProvides(key.s, providerTag.s));
        }
        if sid !in g.defs {
          return Fail(ServiceNotFound(sid));
        }
        g.SetArgument(sid, arg, Ref(providers[providerTag.s][key.s]));
        return Pass;
      }
      if sid !in g.defs {
        return Fail(ServiceNotFound(sid));
      }
      if param.Str? {
        if param.s !in g.params {
          return Fail(ParameterNotFound(param.s));
        }
        g.SetArgument(sid, arg, g.params[param.s]);
      } else {
        g.SetArgument(sid, arg, Ref(service.s));
      }
      r := Pass;
    }

    /** `ensureProvidersDiscoveredFor`: builds the table of a provider tag unless this run already has it. */
    method EnsureProvidersDiscoveredFor(g: Graph, providerTag: string) returns (r: Status)
      modifies this
      ensures var spec := EnsureProviders(g.State(), old(providers), providerTag);
        && (r.Pass? <==> spec.Ok?)
        && (spec.Ok? ==> providers == spec.value)
        && (spec.Err? ==> r == Fail(spec.error))
    {
      if providerTag in providers {
        return Pass;
      }
      var tagged := g.State().TaggedServices(providerTag);
      if tagged == [] {
        return Fail(NoProviders(providerTag));
      }
      ghost var built := Provide(map[], AllProvisions(tagged), providerTag);
      var table: Table := map[];
      var i := 0;
      while i < |tagged|
        invariant 0 <= i <= |tagged|
        invariant providers == old(providers)
        invariant built == Provide(table, AllProvisions(tagged[i..]), providerTag)
      {
        assert tagged[i..][1..] == tagged[i + 1..];
        assert AllProvisions(tagged[i..]) == Provisions(tagged[i].0, tagged[i].1) + AllProvisions(tagged[i + 1..]);
        ProvideAppend(table, Provisions(tagged[i].0, tagged[i].1), AllProvisions(tagged[i + 1..]), providerTag);
        var next := DiscoverProvidersFromTags(table, tagged[i].1, providerTag, tagged[i].0);
        if next.Err? {
          assert built == Err(next.error);
          return Fail(next.error);
        }
        table := next.value;
        i := i + 1;
      }
      assert AllProvisions(tagged[i..]) == [];
      assert built == Ok(table);
      providers := providers[providerTag := table];
      r := Pass;
    }
  }
}
