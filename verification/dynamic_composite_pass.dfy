/**
 * The dynamic composite pass. A composite service tagged with the pass tag
 * names a member tag; every occurrence of the member tag becomes a member,
 * ordered by ascending priority with ties in discovery order, and the members
 * are injected either as one list into a constructor slot or as one method
 * call per member, whose other arguments a resolver chosen by member tag
 * supplies.
 */
module DynamicCompositePass {
  import opened Values
  import opened Errors
  import opened Container
  import opened Asserts

  const DefaultTag := "dynamic_composite"

  /** The method name that selects constructor injection. */
  const ConstructorMethod := "__construct"

  const StringType := {TString}

  const ArgumentTypes := {TString, TInteger}

  const BoolType := {TBoolean}

  const PriorityTypes := {TInteger}

  // ---------------------------------------------------------------------------
  // The configuration of one composite tag occurrence

  /** What one occurrence of the pass tag asks for. */
  datatype Config = Config(tagName: string, methodName: string, argument: ArgKey, prioritized: bool)

  /**
   * The four properties and their defaults: `tag` must be a string, `method`
   * a string (constructor injection when absent), `argument` an int or a
   * string (slot 0 when absent), `prioritized` a bool (true when absent).
   */
  function ConfigOf(sid: string, occ: Props): Result<Config> {
    var tagName := GetOr(occ, "tag", Null);
    var methodName := GetOr(occ, "method", Str(ConstructorMethod));
    var argument := GetOr(occ, "argument", Int(0));
    var prioritized := GetOr(occ, "prioritized", Bool(true));
    :- AssertValueIsOfType(tagName, StringType, "tag", sid);
    :- AssertValueIsOfType(methodName, StringType, "method", sid);
    :- AssertValueIsOfType(argument, ArgumentTypes, "argument", sid);
    :- AssertValueIsOfType(prioritized, BoolType, "prioritized", sid);
    Ok(Config(tagName.s, methodName.s, ToArgKey(argument), prioritized.b))
  }

  /** The properties are checked in the order `tag`, `method`, `argument`, `prioritized`. */
  lemma ConfigSpec(sid: string, occ: Props)
    ensures var r := ConfigOf(sid, occ);
      var (tagName, methodName, argument, prioritized) :=
        (GetOr(occ, "tag", Null), GetOr(occ, "method", Str(ConstructorMethod)), GetOr(occ, "argument", Int(0)), GetOr(occ, "prioritized", Bool(true)));
      && (r.Ok? <==> tagName.Str? && methodName.Str? && (argument.Int? || argument.Str?) && prioritized.Bool?)
      && (r.Ok? ==> r.value == Config(tagName.s, methodName.s, ToArgKey(argument), prioritized.b))
      && (!tagName.Str? ==> r == Err(UnexpectedType("tag", StringType, sid)))
      && (tagName.Str? && !methodName.Str? ==> r == Err(UnexpectedType("method", StringType, sid)))
      && (tagName.Str? && methodName.Str? && !(argument.Int? || argument.Str?) ==>
            r == Err(UnexpectedType("argument", ArgumentTypes, sid)))
      && (tagName.Str? && methodName.Str? && (argument.Int? || argument.Str?) && !prioritized.Bool? ==>
            r == Err(UnexpectedType("prioritized", BoolType, sid)))
  {
  }

  // ---------------------------------------------------------------------------
  // The priority queue of members

  /**
   * One pushed occurrence of the member tag: the member's id, the occurrence's
   * properties, its priority and the number of pushes before it.
   */
  datatype Member = Member(id: string, props: Props, priority: int, stamp: nat)

  /** Queue order: lower priority first, and among equal priorities the earlier push. */
  predicate Before(a: Member, b: Member) {
    a.priority < b.priority || (a.priority == b.priority && a.stamp < b.stamp)
  }

  predicate Ordered(q: seq<Member>) {
    forall i, j :: 0 <= i < j < |q| ==> Before(q[i], q[j])
  }

  /**
   * `PriorityQueue::push($m, -$priority)`: the queue is held in extraction
   * order, and a new member goes after every member of the same or a lower
   * priority.
   */
  function Enqueue(q: seq<Member>, m: Member): (r: seq<Member>)
    ensures |r| == |q| + 1
    decreases |q|
  {
    if q == [] then [m]
    else if m.priority < q[0].priority then [m] + q
    else [q[0]] + Enqueue(q[1..], m)
  }

  /** Pushing adds exactly the new member. */
  lemma {:induction false} EnqueueMultiset(q: seq<Member>, m: Member)
    ensures multiset(Enqueue(q, m)) == multiset(q) + multiset{m}
    decreases |q|
  {
    if q != [] && m.priority >= q[0].priority {
      EnqueueMultiset(q[1..], m);
      assert q == [q[0]] + q[1..];
    }
  }

  lemma EnqueueMembers(q: seq<Member>, m: Member)
    ensures forall x :: x in Enqueue(q, m) <==> x in q || x == m
  {
    EnqueueMultiset(q, m);
    forall x ensures x in Enqueue(q, m) <==> x in q || x == m {
      assert x in Enqueue(q, m) <==> x in multiset(Enqueue(q, m));
      assert x in q <==> x in multiset(q);
    }
  }

  lemma OrderedTail(q: seq<Member>)
    requires q != [] && Ordered(q)
    ensures Ordered(q[1..])
  {
    forall i, j | 0 <= i < j < |q[1..]| ensures Before(q[1..][i], q[1..][j]) {
      assert q[1..][i] == q[i + 1] && q[1..][j] == q[j + 1];
    }
  }

  /** Pushing a member later than every queued one keeps the queue ordered. */
  lemma {:induction false} EnqueueOrdered(q: seq<Member>, m: Member)
    requires Ordered(q)
    requires forall i :: 0 <= i < |q| ==> q[i].stamp < m.stamp
    ensures Ordered(Enqueue(q, m))
    decreases |q|
  {
    if q == [] {
    } else if m.priority < q[0].priority {
      var r := [m] + q;
      forall i, j | 0 <= i < j < |r| ensures Before(r[i], r[j]) {
        assert r[j] == q[j - 1];
        if i == 0 {
          if j > 1 {
            assert Before(q[0], q[j - 1]);
          }
        } else {
          assert r[i] == q[i - 1];
        }
      }
    } else {
      OrderedTail(q);
      assert forall i :: 0 <= i < |q[1..]| ==> q[1..][i] == q[i + 1];
      EnqueueOrdered(q[1..], m);
      var rest := Enqueue(q[1..], m);
      EnqueueMembers(q[1..], m);
      var r := [q[0]] + rest;
      forall i, j | 0 <= i < j < |r| ensures Before(r[i], r[j]) {
        assert r[j] == rest[j - 1];
        if i == 0 {
          var x := rest[j - 1];
          assert x in rest;
          if x != m {
            var k :| 0 <= k < |q[1..]| && q[1..][k] == x;
            assert Before(q[0], q[k + 1]);
          }
        } else {
          assert r[i] == rest[i - 1];
        }
      }
    }
  }

  /** A member no queued member follows in queue order goes last. */
  lemma {:induction false} EnqueueLast(q: seq<Member>, m: Member)
    requires forall x | x in q :: x.priority <= m.priority
    ensures Enqueue(q, m) == q + [m]
    decreases |q|
  {
    if q != [] {
      assert q[0] in q;
      forall x | x in q[1..] ensures x.priority <= m.priority {
        assert x in q;
      }
      EnqueueLast(q[1..], m);
      assert [q[0]] + (q[1..] + [m]) == q + [m];
    }
  }

  /** The queue after pushing `ms` in order. */
  function Queued(q: seq<Member>, ms: seq<Member>): seq<Member>
    decreases |ms|
  {
    if ms == [] then q else Queued(Enqueue(q, ms[0]), ms[1..])
  }

  lemma {:induction false} QueuedMultiset(q: seq<Member>, ms: seq<Member>)
    ensures multiset(Queued(q, ms)) == multiset(q) + multiset(ms)
    decreases |ms|
  {
    if ms != [] {
      EnqueueMultiset(q, ms[0]);
      QueuedMultiset(Enqueue(q, ms[0]), ms[1..]);
      assert ms == [ms[0]] + ms[1..];
    }
  }

  lemma {:induction false} QueuedLength(q: seq<Member>, ms: seq<Member>)
    ensures |Queued(q, ms)| == |q| + |ms|
    decreases |ms|
  {
    if ms != [] {
      QueuedLength(Enqueue(q, ms[0]), ms[1..]);
    }
  }

  lemma {:induction false} QueuedAppend(q: seq<Member>, a: seq<Member>, b: seq<Member>)
    ensures Queued(q, a + b) == Queued(Queued(q, a), b)
    decreases |a|
  {
    if a == [] {
      assert a + b == b;
    } else {
      assert (a + b)[1..] == a[1..] + b;
      QueuedAppend(Enqueue(q, a[0]), a[1..], b);
    }
  }

  /** Stamps strictly increase along `ms` and exceed every queued stamp. */
  predicate LaterPushes(q: seq<Member>, ms: seq<Member>) {
    && (forall i, j :: 0 <= i < j < |ms| ==> ms[i].stamp < ms[j].stamp)
    && (forall i, x :: 0 <= i < |ms| && x in q ==> x.stamp < ms[i].stamp)
  }

  lemma {:induction false} QueuedOrdered(q: seq<Member>, ms: seq<Member>)
    requires Ordered(q) && LaterPushes(q, ms)
    ensures Ordered(Queued(q, ms))
    decreases |ms|
  {
    if ms != [] {
      var q' := Enqueue(q, ms[0]);
      forall i | 0 <= i < |q| ensures q[i].stamp < ms[0].stamp {
        assert q[i] in q;
      }
      EnqueueOrdered(q, ms[0]);
      EnqueueMembers(q, ms[0]);
      forall i, x | 0 <= i < |ms[1..]| && x in q' ensures x.stamp < ms[1..][i].stamp {
        assert ms[1..][i] == ms[i + 1];
      }
      forall i, j | 0 <= i < j < |ms[1..]| ensures ms[1..][i].stamp < ms[1..][j].stamp {
        assert ms[1..][i] == ms[i + 1] && ms[1..][j] == ms[j + 1];
      }
      QueuedOrdered(q', ms[1..]);
    }
  }

  /** Pushing equal priorities in stamp order appends them. */
  lemma {:induction false} QueuedAppends(q: seq<Member>, ms: seq<Member>, p: int)
    requires forall x | x in q :: x.priority == p
    requires forall x | x in ms :: x.priority == p
    ensures Queued(q, ms) == q + ms
    decreases |ms|
  {
    if ms == [] {
      assert q + ms == q;
    } else {
      assert ms[0] in ms;
      EnqueueLast(q, ms[0]);
      forall x | x in ms[1..] ensures x.priority == p {
        assert x in ms;
      }
      QueuedAppends(q + [ms[0]], ms[1..], p);
      assert (q + [ms[0]]) + ms[1..] == q + ms;
    }
  }

  // ---------------------------------------------------------------------------
  // Collecting the members

  /** The priority an occurrence is pushed with: read and checked only when prioritized, 0 otherwise. */
  function PriorityOf(sid: string, occ: Props, prioritized: bool): (r: Result<int>)
    ensures !prioritized ==> r == Ok(0)
    ensures prioritized ==> var p := GetOr(occ, "priority", Int(0));
      if p.Int? then r == Ok(p.i) else r == Err(UnexpectedType("priority", PriorityTypes, sid))
  {
    if !prioritized then Ok(0)
    else
      var p := GetOr(occ, "priority", Int(0));
      :- AssertValueIsOfType(p, PriorityTypes, "priority", sid);
      Ok(p.i)
  }

  /** Every occurrence of one member service as a member, in order, stamped from `stamp` on. */
  function OccurrencePushes(sid: string, occs: seq<Props>, prioritized: bool, stamp: nat): (r: Result<seq<Member>>)
    ensures r.Ok? <==> forall i :: 0 <= i < |occs| ==> PriorityOf(sid, occs[i], prioritized).Ok?
    ensures r.Ok? ==> |r.value| == |occs| && forall i :: 0 <= i < |occs| ==>
      r.value[i] == Member(sid, occs[i], PriorityOf(sid, occs[i], prioritized).value, stamp + i)
    decreases |occs|
  {
    if occs == [] then Ok([])
    else
      var p :- PriorityOf(sid, occs[0], prioritized);
      var rest :- OccurrencePushes(sid, occs[1..], prioritized, stamp + 1);
      assert forall i :: 1 <= i < |occs| ==> occs[1..][i - 1] == occs[i];
      Ok([Member(sid, occs[0], p, stamp)] + rest)
  }

  /** Every occurrence of the member tag, service by service, in discovery order. */
  function Pushes(tagged: seq<(string, seq<Props>)>, prioritized: bool, stamp: nat): (r: Result<seq<Member>>)
    ensures r.Ok? ==> forall i :: 0 <= i < |r.value| ==> r.value[i].stamp == stamp + i
    decreases |tagged|
  {
    if tagged == [] then Ok([])
    else
      var here :- OccurrencePushes(tagged[0].0, tagged[0].1, prioritized, stamp);
      var rest :- Pushes(tagged[1..], prioritized, stamp + |here|);
      Ok(here + rest)
  }

  /** The inner loop of `collectServicesToInject`: one member service's occurrences, pushed as they are read. */
  function CollectFrom(q: seq<Member>, sid: string, occs: seq<Props>, prioritized: bool): Result<seq<Member>>
    decreases |occs|
  {
    if occs == [] then Ok(q)
    else
      var p :- PriorityOf(sid, occs[0], prioritized);
      CollectFrom(Enqueue(q, Member(sid, occs[0], p, |q|)), sid, occs[1..], prioritized)
  }

  /** `collectServicesToInject`: every tagged member service in discovery order. */
  function Collect(q: seq<Member>, tagged: seq<(string, seq<Props>)>, prioritized: bool): Result<seq<Member>>
    decreases |tagged|
  {
    if tagged == [] then Ok(q)
    else
      var q' :- CollectFrom(q, tagged[0].0, tagged[0].1, prioritized);
      Collect(q', tagged[1..], prioritized)
  }

  lemma {:induction false} CollectFromIsQueued(q: seq<Member>, sid: string, occs: seq<Props>, prioritized: bool)
    ensures CollectFrom(q, sid, occs, prioritized) ==
      (match OccurrencePushes(sid, occs, prioritized, |q|)
       case Ok(ms) => Ok(Queued(q, ms))
       case Err(e) => Err(e))
    decreases |occs|
  {
    if occs != [] && PriorityOf(sid, occs[0], prioritized).Ok? {
      var m := Member(sid, occs[0], PriorityOf(sid, occs[0], prioritized).value, |q|);
      CollectFromIsQueued(Enqueue(q, m), sid, occs[1..], prioritized);
      var rest := OccurrencePushes(sid, occs[1..], prioritized, |q| + 1);
      if rest.Ok? {
        assert OccurrencePushes(sid, occs, prioritized, |q|).value == [m] + rest.value;
        assert ([m] + rest.value)[1..] == rest.value;
      }
    }
  }

  /** Collecting as the loops do is pushing every occurrence in discovery order. */
  lemma {:induction false} CollectIsQueued(q: seq<Member>, tagged: seq<(string, seq<Props>)>, prioritized: bool)
    ensures Collect(q, tagged, prioritized) ==
      (match Pushes(tagged, prioritized, |q|)
       case Ok(ms) => Ok(Queued(q, ms))
       case Err(e) => Err(e))
    decreases |tagged|
  {
    if tagged != [] {
      var (sid, occs) := tagged[0];
      CollectFromIsQueued(q, sid, occs, prioritized);
      var here := OccurrencePushes(sid, occs, prioritized, |q|);
      if here.Ok? {
        var q' := Queued(q, here.value);
        QueuedLength(q, here.value);
        CollectIsQueued(q', tagged[1..], prioritized);
        var rest := Pushes(tagged[1..], prioritized, |q'|);
        if rest.Ok? {
          QueuedAppend(q, here.value, rest.value);
        }
      }
    }
  }

  /**
   * The members are exactly the pushed occurrences, ordered by ascending
   * priority and, among equal priorities, in discovery order; collecting
   * fails exactly when some pushed occurrence has a non-integer priority.
   */
  lemma CollectSpec(tagged: seq<(string, seq<Props>)>, prioritized: bool)
    ensures Collect([], tagged, prioritized).Ok? <==> Pushes(tagged, prioritized, 0).Ok?
    ensures Collect([], tagged, prioritized).Ok? ==>
      var q := Collect([], tagged, prioritized).value;
      && Ordered(q)
      && multiset(q) == multiset(Pushes(tagged, prioritized, 0).value)
  {
    CollectIsQueued([], tagged, prioritized);
    var ms := Pushes(tagged, prioritized, 0);
    if ms.Ok? {
      QueuedMultiset([], ms.value);
      QueuedOrdered([], ms.value);
    }
  }

  /** Every pushed occurrence of an unprioritized member tag has priority 0. */
  lemma {:induction false} UnprioritizedPushes(tagged: seq<(string, seq<Props>)>, stamp: nat)
    requires Pushes(tagged, false, stamp).Ok?
    ensures forall x | x in Pushes(tagged, false, stamp).value :: x.priority == 0
    decreases |tagged|
  {
    if tagged != [] {
      var here := OccurrencePushes(tagged[0].0, tagged[0].1, false, stamp).value;
      UnprioritizedPushes(tagged[1..], stamp + |here|);
    }
  }

  /** Without prioritization the members are the occurrences in pure discovery order. */
  lemma UnprioritizedKeepsDiscoveryOrder(tagged: seq<(string, seq<Props>)>)
    ensures Pushes(tagged, false, 0).Ok?
    ensures Collect([], tagged, false) == Ok(Pushes(tagged, false, 0).value)
  {
    NeverFailsUnprioritized(tagged, 0);
    CollectIsQueued([], tagged, false);
    UnprioritizedPushes(tagged, 0);
    QueuedAppends([], Pushes(tagged, false, 0).value, 0);
    assert [] + Pushes(tagged, false, 0).value == Pushes(tagged, false, 0).value;
  }

  /** The priority is not read, so nothing can fail. */
  lemma {:induction false} NeverFailsUnprioritized(tagged: seq<(string, seq<Props>)>, stamp: nat)
    ensures Pushes(tagged, false, stamp).Ok?
    decreases |tagged|
  {
    if tagged != [] {
      var here := OccurrencePushes(tagged[0].0, tagged[0].1, false, stamp);
      NeverFailsUnprioritized(tagged[1..], stamp + |here.value|);
    }
  }

  // ---------------------------------------------------------------------------
  // Registering a composite

  /** A resolver's `resolveFor`: the composite's id and a member's tag properties to extra call arguments. */
  type Resolver = (string, Props) -> map<ArgKey, ArgValue>

  /** The resolver used for a member tag without a registered one: it adds no arguments. */
  const NoArguments: Resolver := (_: string, _: Props) => map[]

  /** The members' references, in queue order. */
  function Ids(q: seq<Member>): (r: seq<string>)
    ensures |r| == |q| && forall i :: 0 <= i < |q| ==> r[i] == q[i].id
    decreases |q|
  {
    if q == [] then [] else [q[0].id] + Ids(q[1..])
  }

  /** PHP's `isset($resolved[$argument])`: the resolver set the slot to something other than null. */
  predicate Collides(resolve: Resolver, compositeId: string, argument: ArgKey, m: Member) {
    var resolved := resolve(compositeId, m.props);
    argument in resolved && resolved[argument] != Literal(Null)
  }

  /** The call added for one member: the resolver's arguments plus the member at the configured slot. */
  function CallFor(resolve: Resolver, compositeId: string, methodName: string, argument: ArgKey, m: Member): MethodCall {
    MethodCall(methodName, resolve(compositeId, m.props)[argument := Ref(m.id)])
  }

  function CallsFor(resolve: Resolver, compositeId: string, methodName: string, argument: ArgKey, q: seq<Member>): (r: seq<MethodCall>)
    ensures |r| == |q| && forall i :: 0 <= i < |q| ==> r[i] == CallFor(resolve, compositeId, methodName, argument, q[i])
    decreases |q|
  {
    if q == [] then [] else [CallFor(resolve, compositeId, methodName, argument, q[0])] + CallsFor(resolve, compositeId, methodName, argument, q[1..])
  }

  /** The loop of `registerDynamicCompositeForMethod`: one call per member, in order. */
  function AddCalls(gs: GraphState, compositeId: string, methodName: string, argument: ArgKey, resolve: Resolver, q: seq<Member>): Result<GraphState>
    requires compositeId in gs.defs
    decreases |q|
  {
    if q == [] then Ok(gs)
    else if Collides(resolve, compositeId, argument, q[0]) then Err(ArgumentDefinedByResolver(argument))
    else AddCalls(gs.AddMethodCall(compositeId, CallFor(resolve, compositeId, methodName, argument, q[0])), compositeId, methodName, argument, resolve, q[1..])
  }

  /** The graph with `calls` appended to the composite's method calls. */
  function WithCalls(gs: GraphState, compositeId: string, calls: seq<MethodCall>): GraphState
    requires compositeId in gs.defs
  {
    gs.(defs := gs.defs[compositeId := gs.defs[compositeId].(calls := gs.defs[compositeId].calls + calls)])
  }

  /** Method injection succeeds exactly when the resolver sets the slot for no member. */
  lemma {:induction false} AddCallsSucceeds(gs: GraphState, compositeId: string, methodName: string, argument: ArgKey, resolve: Resolver, q: seq<Member>)
    requires compositeId in gs.defs
    ensures var r := AddCalls(gs, compositeId, methodName, argument, resolve, q);
      && (r.Ok? <==> forall i :: 0 <= i < |q| ==> !Collides(resolve, compositeId, argument, q[i]))
      && (r.Err? ==> r.error == ArgumentDefinedByResolver(argument))
    decreases |q|
  {
    if q != [] && !Collides(resolve, compositeId, argument, q[0]) {
      var gs' := gs.AddMethodCall(compositeId, CallFor(resolve, compositeId, methodName, argument, q[0]));
      AddCallsSucceeds(gs', compositeId, methodName, argument, resolve, q[1..]);
      assert forall i :: 1 <= i < |q| ==> q[1..][i - 1] == q[i];
    }
  }

  /** Adding one call and then `rest` is adding `[c] + rest`. */
  lemma WithCallsStep(gs: GraphState, compositeId: string, c: MethodCall, rest: seq<MethodCall>)
    requires compositeId in gs.defs
    ensures WithCalls(gs.AddMethodCall(compositeId, c), compositeId, rest) == WithCalls(gs, compositeId, [c] + rest)
  {
    var d := gs.defs[compositeId];
    assert d.calls + [c] + rest == d.calls + ([c] + rest);
  }

  lemma WithNoCalls(gs: GraphState, compositeId: string)
    requires compositeId in gs.defs
    ensures WithCalls(gs, compositeId, []) == gs
  {
    var d := gs.defs[compositeId];
    assert d.(calls := d.calls + []) == d;
    assert gs.defs[compositeId := d] == gs.defs;
  }

  /** On success the composite has gained one call per member, in order, and nothing else has changed. */
  lemma {:induction false} AddCallsResult(gs: GraphState, compositeId: string, methodName: string, argument: ArgKey, resolve: Resolver, q: seq<Member>)
    requires compositeId in gs.defs
    requires AddCalls(gs, compositeId, methodName, argument, resolve, q).Ok?
    ensures AddCalls(gs, compositeId, methodName, argument, resolve, q).value == WithCalls(gs, compositeId, CallsFor(resolve, compositeId, methodName, argument, q))
    decreases |q|
  {
    if q == [] {
      WithNoCalls(gs, compositeId);
    } else {
      var c := CallFor(resolve, compositeId, methodName, argument, q[0]);
      AddCallsResult(gs.AddMethodCall(compositeId, c), compositeId, methodName, argument, resolve, q[1..]);
      WithCallsStep(gs, compositeId, c, CallsFor(resolve, compositeId, methodName, argument, q[1..]));
    }
  }

  /** The graph and the member tags whose resolver's `finish` was called, in order. */
  datatype CompositeState = CompositeState(gs: GraphState, finished: seq<string>)

  /** The resolver registered for a member tag, or the one that adds nothing. */
  function ResolverFor(resolvers: map<string, Resolver>, tagName: string): Resolver {
    if tagName in resolvers then resolvers[tagName] else NoArguments
  }

  /**
   * `registerDynamicComposite`: constructor injection sets the configured
   * slot to the members' references, replacing what it held; method
   * injection adds the calls and then finishes the member tag's resolver.
   */
  function RegisterComposite(st: CompositeState, resolvers: map<string, Resolver>, compositeId: string,
                             tagName: string, methodName: string, argument: ArgKey, q: seq<Member>): Result<CompositeState>
  {
    var _ :- st.gs.Find(compositeId);
    if methodName == ConstructorMethod then
      Ok(st.(gs := st.gs.SetArgument(compositeId, argument, RefList(Ids(q)))))
    else
      var gs' :- AddCalls(st.gs, compositeId, methodName, argument, ResolverFor(resolvers, tagName), q);
      Ok(CompositeState(gs', st.finished + (if tagName in resolvers then [tagName] else [])))
  }

  /**
   * The composite must exist; constructor injection replaces exactly the
   * configured slot, and method injection finishes a registered resolver once.
   */
  lemma RegisterCompositeSpec(st: CompositeState, resolvers: map<string, Resolver>, compositeId: string,
                              tagName: string, methodName: string, argument: ArgKey, q: seq<Member>)
    ensures var r := RegisterComposite(st, resolvers, compositeId, tagName, methodName, argument, q);
      compositeId !in st.gs.defs ==> r == Err(ServiceNotFound(compositeId))
    ensures var r := RegisterComposite(st, resolvers, compositeId, tagName, methodName, argument, q);
      compositeId in st.gs.defs && methodName == ConstructorMethod ==>
      r == Ok(st.(gs := st.gs.SetArgument(compositeId, argument, RefList(Ids(q)))))
    ensures var r := RegisterComposite(st, resolvers, compositeId, tagName, methodName, argument, q);
      r.Ok? && methodName != ConstructorMethod ==>
      r.value.finished == st.finished + (if tagName in resolvers then [tagName] else [])
  {
  }

  /** One occurrence of the pass tag: its configuration, its members, then the injection. */
  function RegisterOne(st: CompositeState, resolvers: map<string, Resolver>, compositeId: string, occ: Props): Result<CompositeState> {
    var config :- ConfigOf(compositeId, occ);
    var q :- Collect([], st.gs.TaggedServices(config.tagName), config.prioritized);
    RegisterComposite(st, resolvers, compositeId, config.tagName, config.methodName, config.argument, q)
  }

  /** `registerDynamicTraversers`: every occurrence of the pass tag on one composite, in order. */
  function RegisterAll(st: CompositeState, resolvers: map<string, Resolver>, compositeId: string, occs: seq<Props>): Result<CompositeState>
    decreases |occs|
  {
    if occs == [] then Ok(st)
    else
      var st' :- RegisterOne(st, resolvers, compositeId, occs[0]);
      RegisterAll(st', resolvers, compositeId, occs[1..])
  }

  /** The loop of `process`: every composite in discovery order. */
  function Compose(st: CompositeState, resolvers: map<string, Resolver>, tagged: seq<(string, seq<Props>)>): Result<CompositeState>
    decreases |tagged|
  {
    if tagged == [] then Ok(st)
    else
      var st' :- RegisterAll(st, resolvers, tagged[0].0, tagged[0].1);
      Compose(st', resolvers, tagged[1..])
  }

  /** `process`: the composites tagged with the pass tag when the run starts. */
  function Run(st: CompositeState, resolvers: map<string, Resolver>, tag: string): Result<CompositeState> {
    Compose(st, resolvers, st.gs.TaggedServices(tag))
  }

  // ---------------------------------------------------------------------------
  // The pass object

  /** A step that ran with the graph now in state `gs` and the finish log `finished` did what `spec` says. */
  ghost predicate ReflectsComposite(r: Status, spec: Result<CompositeState>, gs: GraphState, finished: seq<string>) {
    match spec
    case Ok(s) => r.Pass? && gs == s.gs && finished == s.finished
    case Err(e) => r == Fail(e)
  }

  class DynamicCompositePass {
    const tag: string
    const argumentResolvers: map<string, Resolver>
    /** The member tags whose registered resolver's `finish` was called, in order. */
    var finished: seq<string>

    constructor (tag: string, argumentResolvers: map<string, Resolver>)
      ensures this.tag == tag && this.argumentResolvers == argumentResolvers && finished == []
    {
      this.tag := tag;
      this.argumentResolvers := argumentResolvers;
      finished := [];
    }

    /** `process`: the graph and the finish log end up as the specification says, or the run fails with its error. */
    method Process(g: Graph) returns (r: Status)
      modifies this, g
      ensures ReflectsComposite(r, Run(CompositeState(old(g.State()), old(finished)), argumentResolvers, tag), g.State(), finished)
    {
      var tagged := g.State().TaggedServices(tag);
      ghost var start := CompositeState(g.State(), finished);
      var i := 0;
      while i < |tagged|
        invariant 0 <= i <= |tagged|
        invariant Compose(start, argumentResolvers, tagged) == Compose(CompositeState(g.State(), finished), argumentResolvers, tagged[i..])
      {
        assert tagged[i..][1..] == tagged[i + 1..];
        r := RegisterDynamicTraversers(g, tagged[i].0, tagged[i].1);
        if r.Fail? {
          return;
        }
        i := i + 1;
      }
      r := Pass;
    }

    /** `registerDynamicTraversers`: every occurrence of the pass tag on one composite, in order. */
    method RegisterDynamicTraversers(g: Graph, compositeId: string, occs: seq<Props>) returns (r: Status)
      modifies this, g
      ensures ReflectsComposite(r, RegisterAll(old(CompositeState(g.State(), finished)), argumentResolvers, compositeId, occs), g.State(), finished)
    {
      var i := 0;
      while i < |occs|
        invariant 0 <= i <= |occs|
        invariant RegisterAll(old(CompositeState(g.State(), finished)), argumentResolvers, compositeId, occs)
          == RegisterAll(CompositeState(g.State(), finished), argumentResolvers, compositeId, occs[i..])
      {
        assert occs[i..][1..] == occs[i + 1..];
        r := RegisterOccurrence(g, compositeId, occs[i]);
        if r.Fail? {
          return;
        }
        i := i + 1;
      }
      r := Pass;
    }

    /** The body of the loop of `registerDynamicTraversers`: one occurrence of the pass tag. */
    method RegisterOccurrence(g: Graph, compositeId: string, occ: Props) returns (r: Status)
      modifies this, g
      ensures ReflectsComposite(r, RegisterOne(old(CompositeState(g.State(), finished)), argumentResolvers, compositeId, occ), g.State(), finished)
    {
      var config := ConfigOf(compositeId, occ);
      if config.Err? {
        return Fail(config.error);
      }
      var members := CollectServicesToInject(g, config.value.tagName, config.value.prioritized);
      if members.Err? {
        return Fail(members.error);
      }
      r := RegisterDynamicComposite(g, config.value.tagName, compositeId, members.value, config.value.methodName, config.value.argument);
    }

    /** `collectServicesToInject`: pushes every occurrence of the member tag, in discovery order. */
    method CollectServicesToInject(g: Graph, tagName: string, prioritized: bool) returns (r: Result<seq<Member>>)
      ensures r == Collect([], g.State().TaggedServices(tagName), prioritized)
    {
      var tagged := g.State().TaggedServices(tagName);
      var q: seq<Member> := [];
      var i := 0;
      while i < |tagged|
        invariant 0 <= i <= |tagged|
        invariant Collect([], tagged, prioritized) == Collect(q, tagged[i..], prioritized)
      {
        assert tagged[i..][1..] == tagged[i + 1..];
        var next := PushOccurrences(q, tagged[i].0, tagged[i].1, prioritized);
        if next.Err? {
          return Err(next.error);
        }
        q := next.value;
        i := i + 1;
      }
      r := Ok(q);
    }

    /** The inner loop of `collectServicesToInject`: one member service's occurrences, pushed as they are read. */
    method PushOccurrences(q0: seq<Member>, sid: string, occs: seq<Props>, prioritized: bool) returns (r: Result<seq<Member>>)
      ensures r == CollectFrom(q0, sid, occs, prioritized)
    {
      var q := q0;
      var j := 0;
      while j < |occs|
        invariant 0 <= j <= |occs|
        invariant CollectFrom(q0, sid, occs, prioritized) == CollectFrom(q, sid, occs[j..], prioritized)
      {
        assert occs[j..][1..] == occs[j + 1..];
        var priority := 0;
        if prioritized {
          var p := GetOr(occs[j], "priority", Int(0));
          if !p.Int? {
            return Err(UnexpectedType("priority", PriorityTypes, sid));
          }
          priority := p.i;
        }
        q := Enqueue(q, Member(sid, occs[j], priority, |q|));
        j := j + 1;
      }
      r := Ok(q);
    }

    /** `registerDynamicComposite`: constructor or method injection into an existing composite. */
    method RegisterDynamicComposite(g: Graph, tagName: string, compositeId: string, q: seq<Member>, methodName: string, argument: ArgKey) returns (r: Status)
      modifies this, g
      ensures ReflectsComposite(r, RegisterComposite(old(CompositeState(g.State(), finished)), argumentResolvers, compositeId, tagName, methodName, argument, q), g.State(), finished)
    {
      if compositeId !in g.defs {
        return Fail(ServiceNotFound(compositeId));
      }
      if methodName == ConstructorMethod {
        RegisterDynamicCompositeForConstructor(g, compositeId, q, argument);
        return Pass;
      }
      r := RegisterDynamicCompositeForMethod(g, tagName, compositeId, q, methodName, argument);
    }

    /** `registerDynamicCompositeForConstructor`: the slot receives the members' references. */
    method RegisterDynamicCompositeForConstructor(g: Graph, compositeId: string, q: seq<Member>, argument: ArgKey)
      requires compositeId in g.defs
      modifies g
      ensures g.State() == old(g.State()).SetArgument(compositeId, argument, RefList(Ids(q)))
    {
      var ids: seq<string> := [];
      var i := 0;
      while i < |q|
        invariant 0 <= i <= |q|
        invariant |ids| == i && forall j :: 0 <= j < i ==> ids[j] == q[j].id
      {
        ids := ids + [q[i].id];
        i := i + 1;
      }
      assert ids == Ids(q);
      g.SetArgument(compositeId, argument, RefList(ids));
    }

    /** `registerDynamicCompositeForMethod`: one call per member, then the resolver's `finish`. */
    method RegisterDynamicCompositeForMethod(g: Graph, tagName: string, compositeId: string, q: seq<Member>, methodName: string, argument: ArgKey) returns (r: Status)
      requires compositeId in g.defs
      modifies this, g
      ensures var spec := AddCalls(old(g.State()), compositeId, methodName, argument, ResolverFor(argumentResolvers, tagName), q);
        && (r.Pass? <==> spec.Ok?)
        && (spec.Ok? ==> g.State() == spec.value && finished == old(finished) + (if tagName in argumentResolvers then [tagName] else []))
        && (spec.Err? ==> r == Fail(spec.error))
    {
      var resolve := ResolverFor(argumentResolvers, tagName);
      var i := 0;
      while i < |q|
        invariant 0 <= i <= |q|
        invariant compositeId in g.defs
        invariant finished == old(finished)
        invariant AddCalls(old(g.State()), compositeId, methodName, argument, resolve, q)
          == AddCalls(g.State(), compositeId, methodName, argument, resolve, q[i..])
      {
        assert q[i..][1..] == q[i + 1..];
        var resolved := resolve(compositeId, q[i].props);
        if argument in resolved && resolved[argument] != Literal(Null) {
          return Fail(ArgumentDefinedByResolver(argument));
        }
        assert MethodCall(methodName, resolved[argument := Ref(q[i].id)]) == CallFor(resolve, compositeId, methodName, argument, q[i]);
        g.AddMethodCall(compositeId, MethodCall(methodName, resolved[argument := Ref(q[i].id)]));
        i := i + 1;
      }
      if tagName in argumentResolvers {
        finished := finished + [tagName];
      }
      r := Pass;
    }
  }
}
