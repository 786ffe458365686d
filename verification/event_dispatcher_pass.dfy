/**
 * The event dispatcher pass. A service tagged with the pass tag is an event
 * dispatcher; each occurrence of the tag names the tag its listeners carry
 * and the tag its subscribers carry. Every such tag name may be claimed by
 * one dispatcher occurrence only. All occurrences are validated before
 * anything is registered; registration itself is the host's listener pass,
 * run once per listener tag thanks to a persistent processed set.
 */
module EventDispatcherPass {
  import opened Values
  import opened Errors
  import opened Container
  import opened Functions

  const PassClass := "Zlikavac32\\SymfonyExtras\\DependencyInjection\\Compiler\\EventDispatcherPass"

  const DefaultTag := "event_dispatcher"

  const ListenerOption := "listener_tag"

  const SubscriberOption := "subscriber_tag"

  /** The key of the persistent set of listener tags already registered. */
  function EventsKey(tag: string): string {
    ProcessedKey(PassClass, tag, "events")
  }

  /** One registered dispatcher: a tag occurrence with its service. */
  datatype Dispatcher = Dispatcher(serviceId: string, listenerTag: Scalar, subscriberTag: Scalar)

  // ---------------------------------------------------------------------------
  // Validation of one tag occurrence

  /**
   * `assertValidTagDefinition`: both options are set (present and not null),
   * and they differ. A missing listener tag is reported first.
   */
  function TagCheck(sid: string, occ: Props): (r: Status)
    ensures r.Pass? <==> IsSet(occ, ListenerOption) && IsSet(occ, SubscriberOption) && occ[ListenerOption] != occ[SubscriberOption]
    ensures !IsSet(occ, ListenerOption) ==> r == Fail(MissingDispatcherOption(ListenerOption, sid))
    ensures IsSet(occ, ListenerOption) && !IsSet(occ, SubscriberOption) ==> r == Fail(MissingDispatcherOption(SubscriberOption, sid))
    ensures IsSet(occ, ListenerOption) && IsSet(occ, SubscriberOption) && occ[ListenerOption] == occ[SubscriberOption] ==>
      r == Fail(SameListenerAndSubscriber(sid))
  {
    if !IsSet(occ, ListenerOption) then Fail(MissingDispatcherOption(ListenerOption, sid))
    else if !IsSet(occ, SubscriberOption) then Fail(MissingDispatcherOption(SubscriberOption, sid))
    else if occ[ListenerOption] == occ[SubscriberOption] then Fail(SameListenerAndSubscriber(sid))
    else Pass
  }

  /** The options checked for presence, in the order they are checked. */
  const RequiredOptions := [ListenerOption, SubscriberOption]

  method AssertValidTagDefinition(occ: Props, sid: string) returns (r: Status)
    ensures r == TagCheck(sid, occ)
  {
    for k := 0 to |RequiredOptions|
      invariant forall j :: 0 <= j < k ==> IsSet(occ, RequiredOptions[j])
    {
      if !IsSet(occ, RequiredOptions[k]) {
        assert k == 1 ==> IsSet(occ, RequiredOptions[0]);
        return Fail(MissingDispatcherOption(RequiredOptions[k], sid));
      }
    }
    assert IsSet(occ, RequiredOptions[0]) && IsSet(occ, RequiredOptions[1]);
    if occ[ListenerOption] == occ[SubscriberOption] {
      return Fail(SameListenerAndSubscriber(sid));
    }
    return Pass;
  }

  // ---------------------------------------------------------------------------
  // Discovery: claiming tag names

  /** The tag names claimed so far, each with the service that claimed it. */
  type UsedTags = map<Scalar, string>

  /** Claims the names `ts` in order for `sid`; a name claimed before fails with its owner. */
  function ClaimAll(used: UsedTags, ts: seq<Scalar>, sid: string): Result<UsedTags>
    decreases |ts|
  {
    if ts == [] then Ok(used)
    else if ts[0] in used then Err(TagAlreadyUsed(ts[0], used[ts[0]]))
    else ClaimAll(used[ts[0] := sid], ts[1..], sid)
  }

  /** The state of `findRegisteredDispatchers`: the claimed names and the dispatchers found so far. */
  datatype Discovery = Discovery(used: UsedTags, dispatchers: seq<Dispatcher>)

  const NoDispatchers := Discovery(map[], [])

  /** One tag occurrence of service `sid`: validate, claim both names, record the dispatcher. */
  function DiscoverOne(d: Discovery, sid: string, occ: Props): Result<Discovery> {
    var listener := GetOr(occ, ListenerOption, Null);
    var subscriber := GetOr(occ, SubscriberOption, Null);
    :- TagCheck(sid, occ);
    var used :- ClaimAll(d.used, [listener, subscriber], sid);
    Ok(Discovery(used, d.dispatchers + [Dispatcher(sid, listener, subscriber)]))
  }

  /**
   * One occurrence is discovered exactly when it is valid and neither of its
   * names is claimed yet; it then claims both names and adds its dispatcher.
   */
  lemma DiscoverOneAccepts(d: Discovery, sid: string, occ: Props)
    ensures var l, s := GetOr(occ, ListenerOption, Null), GetOr(occ, SubscriberOption, Null);
      && (DiscoverOne(d, sid, occ).Ok? <==> TagCheck(sid, occ).Pass? && l !in d.used && s !in d.used)
      && (DiscoverOne(d, sid, occ).Ok? ==>
            DiscoverOne(d, sid, occ).value == Discovery(d.used[l := sid][s := sid], d.dispatchers + [Dispatcher(sid, l, s)]))
  {
    if TagCheck(sid, occ).Pass? {
      var l, s := occ[ListenerOption], occ[SubscriberOption];
      assert [l, s][1..] == [s];
      assert l == GetOr(occ, ListenerOption, Null) && s == GetOr(occ, SubscriberOption, Null);
      if l !in d.used {
        assert ClaimAll(d.used, [l, s], sid) == ClaimAll(d.used[l := sid], [s], sid);
        assert [s][1..] == [];
        if s !in d.used {
          assert ClaimAll(d.used[l := sid], [s], sid) == ClaimAll(d.used[l := sid][s := sid], [], sid);
        }
      }
    }
  }

  /**
   * Besides acceptance, the errors of one occurrence: an invalid occurrence
   * fails with its validation error, and a reused name, the listener tag
   * checked first, is reported with its owner.
   */
  lemma DiscoverOneSpec(d: Discovery, sid: string, occ: Props)
    ensures var l, s := GetOr(occ, ListenerOption, Null), GetOr(occ, SubscriberOption, Null);
      && (DiscoverOne(d, sid, occ).Ok? <==> TagCheck(sid, occ).Pass? && l !in d.used && s !in d.used)
      && (DiscoverOne(d, sid, occ).Ok? ==>
            DiscoverOne(d, sid, occ).value == Discovery(d.used[l := sid][s := sid], d.dispatchers + [Dispatcher(sid, l, s)]))
      && (TagCheck(sid, occ).Fail? ==> DiscoverOne(d, sid, occ) == Err(TagCheck(sid, occ).error))
      && (TagCheck(sid, occ).Pass? && l in d.used ==> DiscoverOne(d, sid, occ) == Err(TagAlreadyUsed(l, d.used[l])))
      && (TagCheck(sid, occ).Pass? && l !in d.used && s in d.used ==> DiscoverOne(d, sid, occ) == Err(TagAlreadyUsed(s, d.used[s])))
  {
    DiscoverOneAccepts(d, sid, occ);
    if TagCheck(sid, occ).Pass? {
      var l, s := occ[ListenerOption], occ[SubscriberOption];
      assert l == GetOr(occ, ListenerOption, Null) && s == GetOr(occ, SubscriberOption, Null);
      if l !in d.used && s in d.used {
        assert ClaimAll(d.used, [l, s], sid) == ClaimAll(d.used[l := sid], [s], sid);
        assert ClaimAll(d.used[l := sid], [s], sid) == Err(TagAlreadyUsed(s, d.used[s]));
      }
    }
  }

  /** Every tag occurrence of a service, paired with the service. */
  function Occurrences(sid: string, occs: seq<Props>): (r: seq<(string, Props)>)
    ensures |r| == |occs|
    ensures forall k :: 0 <= k < |occs| ==> r[k] == (sid, occs[k])
    decreases |occs|
  {
    if occs == [] then [] else [(sid, occs[0])] + Occurrences(sid, occs[1..])
  }

  /** The tag occurrences of all tagged services, service by service. */
  function AllOccurrences(tagged: seq<(string, seq<Props>)>): seq<(string, Props)>
    decreases |tagged|
  {
    if tagged == [] then [] else Occurrences(tagged[0].0, tagged[0].1) + AllOccurrences(tagged[1..])
  }

  /** Discovery over a list of occurrences, stopping at the first error. */
  function Discover(d: Discovery, xs: seq<(string, Props)>): Result<Discovery>
    decreases |xs|
  {
    if xs == [] then Ok(d)
    else
      var d' :- DiscoverOne(d, xs[0].0, xs[0].1);
      Discover(d', xs[1..])
  }

  /** `findRegisteredDispatchers`: the dispatchers of every occurrence of the pass tag. */
  function FoundDispatchers(gs: GraphState, tag: string): Result<seq<Dispatcher>> {
    var d :- Discover(NoDispatchers, AllOccurrences(gs.TaggedServices(tag)));
    Ok(d.dispatchers)
  }

  /** Discovering `a + b` is discovering `a`, then `b` from where `a` left off. */
  lemma {:induction false} DiscoverAppend(d: Discovery, a: seq<(string, Props)>, b: seq<(string, Props)>)
    ensures Discover(d, a + b) == match Discover(d, a) case Ok(d') => Discover(d', b) case Err(e) => Err(e)
    decreases |a|
  {
    if a == [] {
      assert a + b == b;
    } else {
      assert (a + b)[0] == a[0] && (a + b)[1..] == a[1..] + b;
      match DiscoverOne(d, a[0].0, a[0].1)
      case Ok(d') =>
        assert Discover(d, a) == Discover(d', a[1..]);
        assert Discover(d, a + b) == Discover(d', a[1..] + b);
        DiscoverAppend(d', a[1..], b);
      case Err(e) =>
        assert Discover(d, a) == Err(e) == Discover(d, a + b);
    }
  }

  // ---------------------------------------------------------------------------
  // Properties of discovery

  /** The names an occurrence claims, listener tag first. */
  function ClaimedBy(x: (string, Props)): seq<Scalar> {
    [GetOr(x.1, ListenerOption, Null), GetOr(x.1, SubscriberOption, Null)]
  }

  /** Every name claimed by a list of occurrences, in claiming order. */
  function Claimed(xs: seq<(string, Props)>): seq<Scalar>
    decreases |xs|
  {
    if xs == [] then [] else ClaimedBy(xs[0]) + Claimed(xs[1..])
  }

  ghost predicate AllValid(xs: seq<(string, Props)>) {
    forall k :: 0 <= k < |xs| ==> TagCheck(xs[k].0, xs[k].1).Pass?
  }

  /** The dispatcher each occurrence describes. */
  function DispatcherOf(x: (string, Props)): Dispatcher {
    Dispatcher(x.0, GetOr(x.1, ListenerOption, Null), GetOr(x.1, SubscriberOption, Null))
  }

  lemma DistinctCons<T>(a: T, s: seq<T>)
    ensures Distinct([a] + s) <==> a !in s && Distinct(s)
  {
    if a !in s && Distinct(s) {
      forall i, j | 0 <= i < j < |[a] + s| ensures ([a] + s)[i] != ([a] + s)[j] {
        if i > 0 {
          assert ([a] + s)[i] == s[i - 1] && ([a] + s)[j] == s[j - 1];
        } else {
          assert ([a] + s)[j] == s[j - 1];
        }
      }
    }
    if Distinct([a] + s) {
      forall i, j | 0 <= i < j < |s| ensures s[i] != s[j] {
        assert s[i] == ([a] + s)[i + 1] && s[j] == ([a] + s)[j + 1];
      }
      forall k | 0 <= k < |s| ensures s[k] != a {
        assert ([a] + s)[k + 1] == s[k] && ([a] + s)[0] == a;
      }
    }
  }

  lemma AllValidCons(xs: seq<(string, Props)>)
    requires xs != []
    ensures AllValid(xs) <==> TagCheck(xs[0].0, xs[0].1).Pass? && AllValid(xs[1..])
  {
    if TagCheck(xs[0].0, xs[0].1).Pass? && AllValid(xs[1..]) {
      forall k | 0 <= k < |xs| ensures TagCheck(xs[k].0, xs[k].1).Pass? {
        if k > 0 {
          assert xs[k] == xs[1..][k - 1];
        }
      }
    }
  }

  /**
   * Discovery succeeds exactly when every occurrence is valid, no name is
   * claimed twice, and none was claimed before.
   */
  lemma {:induction false} DiscoverSucceeds(d: Discovery, xs: seq<(string, Props)>)
    ensures Discover(d, xs).Ok? <==> AllValid(xs) && Distinct(Claimed(xs)) && forall t :: t in Claimed(xs) ==> t !in d.used
    decreases |xs|
  {
    if xs != [] {
      var x, rest := xs[0], xs[1..];
      AllValidCons(xs);
      DiscoverOneAccepts(d, x.0, x.1);
      var l, s := GetOr(x.1, ListenerOption, Null), GetOr(x.1, SubscriberOption, Null);
      assert Claimed(xs) == [l] + ([s] + Claimed(rest));
      assert l in Claimed(xs) && s in Claimed(xs);
      if DiscoverOne(d, x.0, x.1).Ok? {
        var d' := DiscoverOne(d, x.0, x.1).value;
        DiscoverSucceeds(d', rest);
        DistinctCons(l, [s] + Claimed(rest));
        DistinctCons(s, Claimed(rest));
      }
    }
  }

  /**
   * A successful discovery records one dispatcher per occurrence, in order,
   * and every claimed name belongs to the service that claimed it.
   */
  lemma {:induction false} DiscoverRecords(d: Discovery, xs: seq<(string, Props)>)
    requires Discover(d, xs).Ok?
    ensures var r := Discover(d, xs).value;
      && |r.dispatchers| == |d.dispatchers| + |xs|
      && r.dispatchers[..|d.dispatchers|] == d.dispatchers
      && (forall k :: 0 <= k < |xs| ==> r.dispatchers[|d.dispatchers| + k] == DispatcherOf(xs[k]))
    decreases |xs|
  {
    if xs != [] {
      var x, rest := xs[0], xs[1..];
      DiscoverOneAccepts(d, x.0, x.1);
      var d' := DiscoverOne(d, x.0, x.1).value;
      DiscoverRecords(d', rest);
      var r := Discover(d, xs).value;
      assert r.dispatchers[..|d.dispatchers|] == r.dispatchers[..|d'.dispatchers|][..|d.dispatchers|];
      forall k | 0 <= k < |xs|
        ensures r.dispatchers[|d.dispatchers| + k] == DispatcherOf(xs[k])
      {
        if k == 0 {
          assert r.dispatchers[|d.dispatchers|] == r.dispatchers[..|d'.dispatchers|][|d.dispatchers|];
        } else {
          assert xs[k] == rest[k - 1];
        }
      }
    }
  }

  /** Every name a successful discovery claimed belongs to the service that claimed it. */
  lemma {:induction false} DiscoverOwners(d: Discovery, xs: seq<(string, Props)>)
    requires Discover(d, xs).Ok?
    ensures var r := Discover(d, xs).value;
      forall k :: 0 <= k < |xs| ==>
        && DispatcherOf(xs[k]).listenerTag in r.used && r.used[DispatcherOf(xs[k]).listenerTag] == xs[k].0
        && DispatcherOf(xs[k]).subscriberTag in r.used && r.used[DispatcherOf(xs[k]).subscriberTag] == xs[k].0
    decreases |xs|
  {
    if xs != [] {
      var x, rest := xs[0], xs[1..];
      DiscoverOneAccepts(d, x.0, x.1);
      var d' := DiscoverOne(d, x.0, x.1).value;
      DiscoverOwners(d', rest);
      DiscoverKeepsClaims(d', rest);
      forall k | 0 <= k < |xs| && k > 0 ensures xs[k] == rest[k - 1] {
      }
    }
  }

  /** A name claimed earlier keeps its owner. */
  lemma {:induction false} DiscoverKeepsClaims(d: Discovery, xs: seq<(string, Props)>)
    requires Discover(d, xs).Ok?
    ensures forall t :: t in d.used ==> t in Discover(d, xs).value.used && Discover(d, xs).value.used[t] == d.used[t]
    decreases |xs|
  {
    if xs != [] {
      DiscoverOneAccepts(d, xs[0].0, xs[0].1);
      DiscoverKeepsClaims(DiscoverOne(d, xs[0].0, xs[0].1).value, xs[1..]);
    }
  }

  /**
   * A valid occurrence whose listener tag an earlier occurrence claimed fails
   * with that tag and its first owner, whatever follows.
   */
  lemma ReusedListenerTagFails(a: seq<(string, Props)>, x: (string, Props), b: seq<(string, Props)>, k: nat)
    requires Discover(NoDispatchers, a).Ok?
    requires TagCheck(x.0, x.1).Pass?
    requires k < |a| && DispatcherOf(a[k]).listenerTag == x.1[ListenerOption]
    ensures Discover(NoDispatchers, a + [x] + b) == Err(TagAlreadyUsed(x.1[ListenerOption], a[k].0))
  {
    DiscoverOwners(NoDispatchers, a);
    DiscoverAppend(NoDispatchers, a, [x] + b);
    assert a + [x] + b == a + ([x] + b);
    assert ([x] + b)[0] == x && ([x] + b)[1..] == b;
    DiscoverOneAccepts(Discover(NoDispatchers, a).value, x.0, x.1);
  }

  // ---------------------------------------------------------------------------
  // Registration

  /** The graph and the log of listener passes run (the host's `RegisterListenersPass`). */
  datatype DispatchState = DispatchState(gs: GraphState, registered: seq<Dispatcher>)

  function Marker(d: Dispatcher): Processed {
    ListenerTag(d.listenerTag)
  }

  /** The registration loop: a dispatcher whose listener tag is processed is skipped; otherwise it is registered and its tag marked. */
  function RegisterFrom(st: DispatchState, key: string, ds: seq<Dispatcher>): (r: DispatchState)
    requires key in st.gs.store.sets
    ensures key in r.gs.store.sets
    decreases |ds|
  {
    if ds == [] then st
    else if Marker(ds[0]) in st.gs.store.sets[key] then RegisterFrom(st, key, ds[1..])
    else RegisterFrom(DispatchState(st.gs.MarkProcessed(key, Marker(ds[0])), st.registered + [ds[0]]), key, ds[1..])
  }

  /** `process`: discover and validate everything, then register what is not yet processed. */
  function Dispatch(st: DispatchState, tag: string): Result<DispatchState> {
    var ds :- FoundDispatchers(st.gs, tag);
    var key := EventsKey(tag);
    Ok(RegisterFrom(DispatchState(st.gs.EnsureSet(key), st.registered), key, ds))
  }

  /** The listener tags of a list of dispatchers. */
  function Listeners(ds: seq<Dispatcher>): (r: seq<Scalar>)
    ensures |r| == |ds| && forall k :: 0 <= k < |ds| ==> r[k] == ds[k].listenerTag
    decreases |ds|
  {
    if ds == [] then [] else [ds[0].listenerTag] + Listeners(ds[1..])
  }

  /** The dispatchers whose listener tag is not in `done`, in order. */
  function Unprocessed(ds: seq<Dispatcher>, done: set<Processed>): (r: seq<Dispatcher>)
    ensures forall d :: d in r <==> d in ds && Marker(d) !in done
    decreases |ds|
  {
    if ds == [] then []
    else if Marker(ds[0]) in done then Unprocessed(ds[1..], done)
    else [ds[0]] + Unprocessed(ds[1..], done)
  }

  /** The markers of a list of dispatchers. */
  function Markers(ds: seq<Dispatcher>): set<Processed>
    decreases |ds|
  {
    if ds == [] then {} else {Marker(ds[0])} + Markers(ds[1..])
  }

  /** The markers are exactly the listener tags of the dispatchers. */
  lemma {:induction false} MarkersMembers(ds: seq<Dispatcher>)
    ensures forall d :: d in ds ==> Marker(d) in Markers(ds)
    ensures forall m :: m in Markers(ds) ==> exists d :: d in ds && m == Marker(d)
    decreases |ds|
  {
    if ds != [] {
      MarkersMembers(ds[1..]);
    }
  }

  lemma {:induction false} UnprocessedIgnores(ds: seq<Dispatcher>, done: set<Processed>, m: Processed)
    requires forall d :: d in ds ==> Marker(d) != m
    ensures Unprocessed(ds, done + {m}) == Unprocessed(ds, done)
    decreases |ds|
  {
    if ds != [] {
      UnprocessedIgnores(ds[1..], done, m);
    }
  }

  /** Registration changes only the processed set under `key`, which gains every listener tag. */
  lemma {:induction false} RegisterFromMarks(st: DispatchState, key: string, ds: seq<Dispatcher>)
    requires key in st.gs.store.sets
    ensures var r := RegisterFrom(st, key, ds);
      r.gs.store.sets == st.gs.store.sets[key := st.gs.store.sets[key] + Markers(ds)]
    decreases |ds|
  {
    var done := st.gs.store.sets[key];
    if ds == [] {
      assert done + Markers(ds) == done;
      assert st.gs.store.sets[key := done] == st.gs.store.sets;
    } else {
      if Marker(ds[0]) in done {
        RegisterFromMarks(st, key, ds[1..]);
        assert done + Markers(ds) == done + Markers(ds[1..]);
      } else {
        var st' := DispatchState(st.gs.MarkProcessed(key, Marker(ds[0])), st.registered + [ds[0]]);
        RegisterFromMarks(st', key, ds[1..]);
        assert st'.gs.store.sets == st.gs.store.sets[key := done + {Marker(ds[0])}];
        assert st'.gs.store.sets[key] + Markers(ds[1..]) == done + Markers(ds);
        assert st'.gs.store.sets[key := done + Markers(ds)] == st.gs.store.sets[key := done + Markers(ds)];
      }
    }
  }

  /** Nothing but the processed sets changes. */
  lemma {:induction false} RegisterFromFrame(st: DispatchState, key: string, ds: seq<Dispatcher>)
    requires key in st.gs.store.sets
    ensures var r := RegisterFrom(st, key, ds);
      r.gs.(store := st.gs.store) == st.gs && r.gs.store.registries == st.gs.store.registries
    decreases |ds|
  {
    if ds != [] {
      if Marker(ds[0]) in st.gs.store.sets[key] {
        RegisterFromFrame(st, key, ds[1..]);
      } else {
        RegisterFromFrame(DispatchState(st.gs.MarkProcessed(key, Marker(ds[0])), st.registered + [ds[0]]), key, ds[1..]);
      }
    }
  }

  /**
   * With distinct listener tags, exactly the dispatchers whose listener tag
   * was not processed before are registered, in order.
   */
  lemma {:induction false} RegisterFromLog(st: DispatchState, key: string, ds: seq<Dispatcher>)
    requires key in st.gs.store.sets
    requires Distinct(Listeners(ds))
    ensures RegisterFrom(st, key, ds).registered == st.registered + Unprocessed(ds, st.gs.store.sets[key])
    decreases |ds|
  {
    if ds != [] {
      var done := st.gs.store.sets[key];
      assert Listeners(ds) == [ds[0].listenerTag] + Listeners(ds[1..]);
      DistinctCons(ds[0].listenerTag, Listeners(ds[1..]));
      if Marker(ds[0]) in done {
        RegisterFromLog(st, key, ds[1..]);
      } else {
        var st' := DispatchState(st.gs.MarkProcessed(key, Marker(ds[0])), st.registered + [ds[0]]);
        RegisterFromLog(st', key, ds[1..]);
        forall d | d in ds[1..] ensures Marker(d) != Marker(ds[0]) {
          var k :| 0 <= k < |ds[1..]| && ds[1..][k] == d;
          assert Listeners(ds[1..])[k] == d.listenerTag;
        }
        UnprocessedIgnores(ds[1..], done, Marker(ds[0]));
      }
    }
  }

  /** Registration with every listener tag processed changes nothing. */
  lemma {:induction false} RegisterFromDone(st: DispatchState, key: string, ds: seq<Dispatcher>)
    requires key in st.gs.store.sets
    requires forall d :: d in ds ==> Marker(d) in st.gs.store.sets[key]
    ensures RegisterFrom(st, key, ds) == st
    decreases |ds|
  {
    if ds != [] {
      RegisterFromDone(st, key, ds[1..]);
    }
  }

  /** Discovered listener tags are distinct: each name is claimed once. */
  lemma DiscoveredListenersDistinct(gs: GraphState, tag: string)
    requires FoundDispatchers(gs, tag).Ok?
    ensures Distinct(Listeners(FoundDispatchers(gs, tag).value))
  {
    OccurrenceListenersDistinct(AllOccurrences(gs.TaggedServices(tag)));
  }

  /** The same, for any successful discovery from scratch over a list of occurrences. */
  lemma OccurrenceListenersDistinct(xs: seq<(string, Props)>)
    requires Discover(NoDispatchers, xs).Ok?
    ensures Distinct(Listeners(Discover(NoDispatchers, xs).value.dispatchers))
  {
    DiscoverRecords(NoDispatchers, xs);
    var ds := Discover(NoDispatchers, xs).value.dispatchers;
    DiscoverSucceeds(NoDispatchers, xs);
    ClaimedShape(xs);
    forall i, j | 0 <= i < j < |ds| ensures Listeners(ds)[i] != Listeners(ds)[j] {
      assert Claimed(xs)[2 * i] == Listeners(ds)[i] && Claimed(xs)[2 * j] == Listeners(ds)[j];
    }
  }

  /** An occurrence claims its two names at places `2k` and `2k + 1`. */
  lemma {:induction false} ClaimedShape(xs: seq<(string, Props)>)
    ensures |Claimed(xs)| == 2 * |xs|
    ensures forall k :: 0 <= k < |xs| ==>
      Claimed(xs)[2 * k] == DispatcherOf(xs[k]).listenerTag && Claimed(xs)[2 * k + 1] == DispatcherOf(xs[k]).subscriberTag
    decreases |xs|
  {
    if xs != [] {
      ClaimedShape(xs[1..]);
      forall k | 0 <= k < |xs|
        ensures Claimed(xs)[2 * k] == DispatcherOf(xs[k]).listenerTag
        ensures Claimed(xs)[2 * k + 1] == DispatcherOf(xs[k]).subscriberTag
      {
        if k > 0 {
          assert Claimed(xs)[2 * k] == Claimed(xs[1..])[2 * (k - 1)];
          assert Claimed(xs)[2 * k + 1] == Claimed(xs[1..])[2 * (k - 1) + 1];
          assert xs[k] == xs[1..][k - 1];
        }
      }
    }
  }

  /**
   * Running the pass a second time registers nothing and changes nothing:
   * the first run marked every listener tag it found.
   */
  lemma DispatchIdempotent(st: DispatchState, tag: string)
    requires Dispatch(st, tag).Ok?
    ensures Dispatch(Dispatch(st, tag).value, tag) == Dispatch(st, tag)
  {
    var key := EventsKey(tag);
    var ds := FoundDispatchers(st.gs, tag).value;
    var st0 := DispatchState(st.gs.EnsureSet(key), st.registered);
    var st1 := Dispatch(st, tag).value;
    RegisterFromMarks(st0, key, ds);
    RegisterFromFrame(st0, key, ds);
    MarkersMembers(ds);
    assert st1.gs.ids == st.gs.ids && st1.gs.defs == st.gs.defs;
    assert st1.gs.TaggedServices(tag) == st.gs.TaggedServices(tag);
    assert st1.gs.EnsureSet(key) == st1.gs;
    RegisterFromDone(DispatchState(st1.gs, st1.registered), key, ds);
  }

  /**
   * A successful run registers exactly the discovered dispatchers whose
   * listener tag was not processed before, in discovery order, and marks
   * every discovered listener tag.
   */
  lemma DispatchRegistersUnprocessed(st: DispatchState, tag: string)
    requires Dispatch(st, tag).Ok?
    ensures var ds, key := FoundDispatchers(st.gs, tag).value, EventsKey(tag);
      var done := st.gs.EnsureSet(key).store.sets[key];
      && Dispatch(st, tag).value.registered == st.registered + Unprocessed(ds, done)
      && Dispatch(st, tag).value.gs.store.sets[key] == done + Markers(ds)
  {
    var ds, key := FoundDispatchers(st.gs, tag).value, EventsKey(tag);
    DiscoveredListenersDistinct(st.gs, tag);
    RegisterFromLog(DispatchState(st.gs.EnsureSet(key), st.registered), key, ds);
    RegisterFromMarks(DispatchState(st.gs.EnsureSet(key), st.registered), key, ds);
  }

  // ---------------------------------------------------------------------------
  // The pass object

  /** A run reported `r`; on success the graph and the registration log are the specified ones. */
  ghost predicate ReflectsDispatch(r: Status, spec: Result<DispatchState>, gs: GraphState, registered: seq<Dispatcher>) {
    match spec
    case Ok(s) => r.Pass? && gs == s.gs && registered == s.registered
    case Err(e) => r == Fail(e)
  }

  class EventDispatcherPass {
    const tag: string
    /** The dispatchers the host's listener pass was run for, in order. */
    var registered: seq<Dispatcher>

    constructor (tag: string)
      ensures this.tag == tag && registered == []
    {
      this.tag := tag;
      registered := [];
    }

    /**
     * `process`: the graph and the registration log end up as specified; a
     * validation error leaves both untouched.
     */
    method Process(g: Graph) returns (r: Status)
      modifies this, g
      ensures ReflectsDispatch(r, Dispatch(DispatchState(old(g.State()), old(registered)), tag), g.State(), registered)
      ensures r.Fail? ==> g.State() == old(g.State()) && registered == old(registered)
    {
      var found := FindRegisteredDispatchers(g);
      if found.Err? {
        return Fail(found.error);
      }
      var dispatchers := found.value;
      var key, processed := ProcessedItemsSetFromContainer(g, PassClass, tag, "events");
      ghost var start := DispatchState(g.State(), registered);
      var i := 0;
      while i < |dispatchers|
        invariant 0 <= i <= |dispatchers|
        invariant key == EventsKey(tag)
        invariant key in g.store.sets && processed == g.store.sets[key]
        invariant RegisterFrom(start, key, dispatchers) == RegisterFrom(DispatchState(g.State(), registered), key, dispatchers[i..])
      {
        assert dispatchers[i..][1..] == dispatchers[i + 1..];
        var d := dispatchers[i];
        if ListenerTag(d.listenerTag) !in processed {
          registered := registered + [d];
          processed := processed + {ListenerTag(d.listenerTag)};
          g.SetStore(g.store.(sets := g.store.sets[key := processed]));
        }
        i := i + 1;
      }
      r := Pass;
    }

    /** `findRegisteredDispatchers`: reads the graph and changes nothing. */
    method FindRegisteredDispatchers(g: Graph) returns (r: Result<seq<Dispatcher>>)
      ensures r == FoundDispatchers(g.State(), tag)
    {
      var tagged := g.State().TaggedServices(tag);
      var usedTags: UsedTags := map[];
      var dispatchers: seq<Dispatcher> := [];
      for i := 0 to |tagged|
        invariant Discover(NoDispatchers, AllOccurrences(tagged)) == Discover(Discovery(usedTags, dispatchers), AllOccurrences(tagged[i..]))
      {
        assert tagged[i..][1..] == tagged[i + 1..];
        DiscoverAppend(Discovery(usedTags, dispatchers), Occurrences(tagged[i].0, tagged[i].1), AllOccurrences(tagged[i + 1..]));
        var next := DiscoverService(usedTags, dispatchers, tagged[i].0, tagged[i].1);
        if next.Err? {
          return Err(next.error);
        }
        usedTags, dispatchers := next.value.used, next.value.dispatchers;
      }
      assert tagged[|tagged|..] == [];
      return Ok(dispatchers);
    }

    /** The occurrences of one tagged service, as the inner loop of `findRegisteredDispatchers`. */
    method DiscoverService(used: UsedTags, found: seq<Dispatcher>, sid: string, occs: seq<Props>) returns (r: Result<Discovery>)
      ensures r == Discover(Discovery(used, found), Occurrences(sid, occs))
    {
      var usedTags, dispatchers := used, found;
      for k := 0 to |occs|
        invariant Discover(Discovery(used, found), Occurrences(sid, occs)) == Discover(Discovery(usedTags, dispatchers), Occurrences(sid, occs[k..]))
      {
        assert occs[k..][1..] == occs[k + 1..];
        var valid := AssertValidTagDefinition(occs[k], sid);
        if valid.Fail? {
          return Err(valid.error);
        }
        var newTags := [occs[k][ListenerOption], occs[k][SubscriberOption]];
        var claimed := ClaimTags(usedTags, newTags, sid);
        if claimed.Err? {
          return Err(claimed.error);
        }
        usedTags := claimed.value;
        dispatchers := dispatchers + [Dispatcher(sid, newTags[0], newTags[1])];
      }
      assert occs[|occs|..] == [];
      return Ok(Discovery(usedTags, dispatchers));
    }

    /** The loop over the two new tag names of one occurrence. */
    method ClaimTags(used: UsedTags, newTags: seq<Scalar>, sid: string) returns (r: Result<UsedTags>)
      ensures r == ClaimAll(used, newTags, sid)
    {
      var usedTags := used;
      for j := 0 to |newTags|
        invariant ClaimAll(used, newTags, sid) == ClaimAll(usedTags, newTags[j..], sid)
      {
        assert newTags[j..][1..] == newTags[j + 1..];
        if newTags[j] in usedTags {
          return Err(TagAlreadyUsed(newTags[j], usedTags[newTags[j]]));
        }
        usedTags := usedTags[newTags[j] := sid];
      }
      assert newTags[|newTags|..] == [];
      return Ok(usedTags);
    }
  }
}
