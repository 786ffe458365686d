/**
 * The decorator pass. Abstract templates tagged with the pass's tag register
 * a decorating tag name; every service that carries such a tag gets a
 * synthesized child of the template that decorates it, or decorates the
 * service one of its arguments references. References already handled in an
 * earlier run are remembered in a persistent processed set.
 */
module DecoratorPass {
  import opened Values
  import opened Errors
  import opened Digits
  import opened Container
  import opened Asserts
  import opened Functions

  const PassClass := "Zlikavac32\\SymfonyExtras\\DependencyInjection\\Compiler\\DecoratorPass"

  const ArgumentTypes := {TInteger, TString}

  function RegistryKey(tag: string): string {
    ProcessedKey(PassClass, tag, "decorator_definitions")
  }

  function ProcessedTagsKey(tag: string): string {
    ProcessedKey(PassClass, tag, "processed_tags")
  }

  /** The registry and the processed set of one pass tag live under different keys. */
  lemma StoreKeysDiffer(tag: string)
    ensures RegistryKey(tag) != ProcessedTagsKey(tag)
  {
    ProcessedKeySuffixes(PassClass, tag, "decorator_definitions", "processed_tags");
  }

  /**
   * One occurrence of a decorating tag on a consumer service. Its identity is
   * the tag name, the service and the optional argument; the priority and
   * the residual properties do not take part in it.
   */
  datatype TagReference = TagReference(
    tagName: string,
    serviceId: string,
    priority: int,
    argument: Option<ArgKey>,
    remaining: Props)
  {
    function Identity(): TagIdentity {
      TagIdentity(tagName, serviceId, argument)
    }
  }

  /** Two references are the same reference exactly when tag name, service and argument agree. */
  lemma IdentityIgnoresPriorityAndRest(a: TagReference, b: TagReference)
    ensures a.Identity() == b.Identity() <==>
      a.tagName == b.tagName && a.serviceId == b.serviceId && a.argument == b.argument
  {
  }

  /** PHP's `(string)` of an `int|string` argument. */
  function ArgString(k: ArgKey): string {
    match k
    case Index(n) => IntToString(n)
    case Named(s) => s
  }

  // ---------------------------------------------------------------------------
  // buildMapOfDecorators

  /** Registers the template `id` for the decorating tag one of its occurrences names. */
  function RegisterTemplate(reg: Registry, d: Definition, id: string, occ: Props): (r: Result<Registry>)
    ensures r.Ok? ==> reg.Valid() ==> r.value.Valid()
  {
    var tagName := GetOr(occ, "tag", Null);
    :- AssertDefinitionIsAbstract(d, id);
    :- AssertValueIsOfType(tagName, {TString}, "tag", id);
    var argument := GetOr(occ, "argument", Int(0));
    :- AssertValueIsOfType(argument, ArgumentTypes, "argument", id);
    if tagName.s !in reg.entries then
      Ok(reg.Put(tagName.s, DecoratorDefinition(id, ToArgKey(argument))))
    else if reg.entries[tagName.s].serviceId != id then
      Err(TagAlreadyProvided(tagName.s, reg.entries[tagName.s].serviceId, id))
    else
      Ok(reg)
  }

  /** The template checks of one occurrence; registering only decides between a new entry and a conflict. */
  ghost predicate ValidTemplate(d: Definition, occ: Props) {
    && d.isAbstract
    && GetOr(occ, "tag", Null).Str?
    && TypeOf(GetOr(occ, "argument", Int(0))) in ArgumentTypes
  }

  /**
   * Registration succeeds exactly when the template is valid and its tag is
   * free or already registered to the same service; a success leaves every
   * earlier entry as it was, and afterwards the tag belongs to `id`.
   */
  lemma RegisterTemplateSpec(reg: Registry, d: Definition, id: string, occ: Props)
    ensures var r := RegisterTemplate(reg, d, id, occ);
      && (r.Ok? <==> ValidTemplate(d, occ) && (var t := occ["tag"].s; t !in reg.entries || reg.entries[t].serviceId == id))
      && (r.Ok? ==> var t := occ["tag"].s;
            && t in r.value.entries && r.value.entries[t].serviceId == id
            && (forall n | n in reg.entries :: n in r.value.entries && r.value.entries[n] == reg.entries[n])
            && (forall n | n in r.value.entries :: n in reg.entries || n == t))
      && (r.Err? && ValidTemplate(d, occ) ==> var t := occ["tag"].s;
            r.error == TagAlreadyProvided(t, reg.entries[t].serviceId, id) && reg.entries[t].serviceId != id)
  {
  }

  function RegisterTemplatesOf(reg: Registry, d: Definition, id: string, occs: seq<Props>): Result<Registry>
    decreases |occs|
  {
    if occs == [] then Ok(reg)
    else
      var reg' :- RegisterTemplate(reg, d, id, occs[0]);
      RegisterTemplatesOf(reg', d, id, occs[1..])
  }

  /** `buildMapOfDecorators`: registers every occurrence of the pass tag on the services `ids`, in order. */
  function RegisterTemplates(reg: Registry, defs: map<string, Definition>, tag: string, ids: seq<string>): Result<Registry>
    decreases |ids|
  {
    if ids == [] then Ok(reg)
    else if ids[0] !in defs then Err(ServiceNotFound(ids[0]))
    else
      var reg' :- RegisterTemplatesOf(reg, defs[ids[0]], ids[0], defs[ids[0]].tags.Get(tag));
      RegisterTemplates(reg', defs, tag, ids[1..])
  }

  /** Entries only ever get added: registering never re-points a decorating tag. */
  ghost predicate Extends(reg: Registry, reg': Registry) {
    forall n | n in reg.entries :: n in reg'.entries && reg'.entries[n] == reg.entries[n]
  }

  /** Every occurrence in `occs` on template `id` is valid and its decorating tag belongs to `id` in `reg`. */
  ghost predicate Owns(reg: Registry, d: Definition, id: string, occs: seq<Props>) {
    forall occ: Props | occ in occs ::
      && ValidTemplate(d, occ)
      && occ["tag"].s in reg.entries
      && reg.entries[occ["tag"].s].serviceId == id
  }

  lemma OwnsExtends(reg: Registry, reg': Registry, d: Definition, id: string, occs: seq<Props>)
    requires Owns(reg, d, id, occs) && Extends(reg, reg')
    ensures Owns(reg', d, id, occs)
  {
  }

  lemma {:induction false} RegisterTemplatesOfExtends(reg: Registry, d: Definition, id: string, occs: seq<Props>)
    requires RegisterTemplatesOf(reg, d, id, occs).Ok?
    ensures Extends(reg, RegisterTemplatesOf(reg, d, id, occs).value)
    ensures reg.Valid() ==> RegisterTemplatesOf(reg, d, id, occs).value.Valid()
    ensures Owns(RegisterTemplatesOf(reg, d, id, occs).value, d, id, occs)
    decreases |occs|
  {
    if occs != [] {
      RegisterTemplateSpec(reg, d, id, occs[0]);
      var reg' := RegisterTemplate(reg, d, id, occs[0]).value;
      RegisterTemplatesOfExtends(reg', d, id, occs[1..]);
      var final := RegisterTemplatesOf(reg, d, id, occs).value;
      assert Owns(reg', d, id, occs[..1]);
      OwnsExtends(reg', final, d, id, occs[..1]);
      assert occs == occs[..1] + occs[1..];
    }
  }

  /** Registering a list of services keeps the registry well formed and never re-points an entry. */
  lemma {:induction false} RegisterTemplatesExtends(reg: Registry, defs: map<string, Definition>, tag: string, ids: seq<string>)
    requires RegisterTemplates(reg, defs, tag, ids).Ok?
    ensures Extends(reg, RegisterTemplates(reg, defs, tag, ids).value)
    ensures reg.Valid() ==> RegisterTemplates(reg, defs, tag, ids).value.Valid()
    decreases |ids|
  {
    if ids != [] {
      var d := defs[ids[0]];
      RegisterTemplatesOfExtends(reg, d, ids[0], d.tags.Get(tag));
      RegisterTemplatesExtends(RegisterTemplatesOf(reg, d, ids[0], d.tags.Get(tag)).value, defs, tag, ids[1..]);
    }
  }

  /**
   * After a successful registration every occurrence of the pass tag on the
   * services `ids` is a valid template occurrence whose decorating tag now
   * belongs to that very service: a decorating tag has at most one template.
   */
  lemma {:induction false} RegisterTemplatesOwners(reg: Registry, defs: map<string, Definition>, tag: string, ids: seq<string>)
    requires RegisterTemplates(reg, defs, tag, ids).Ok?
    ensures forall id | id in ids :: id in defs && Owns(RegisterTemplates(reg, defs, tag, ids).value, defs[id], id, defs[id].tags.Get(tag))
    decreases |ids|
  {
    if ids != [] {
      var d := defs[ids[0]];
      var occs := d.tags.Get(tag);
      RegisterTemplatesOfExtends(reg, d, ids[0], occs);
      var reg' := RegisterTemplatesOf(reg, d, ids[0], occs).value;
      RegisterTemplatesOwners(reg', defs, tag, ids[1..]);
      RegisterTemplatesExtends(reg', defs, tag, ids[1..]);
      var final := RegisterTemplates(reg, defs, tag, ids).value;
      OwnsExtends(reg', final, d, ids[0], occs);
      forall id | id in ids ensures id in defs && Owns(final, defs[id], id, defs[id].tags.Get(tag)) {
        if id != ids[0] {
          assert id in ids[1..];
        }
      }
    }
  }

  // ---------------------------------------------------------------------------
  // resolveTagsToProcess

  /** `Set::merge`: `acc` followed by the elements of `xs` it lacks, in order. */
  function Merge(acc: seq<string>, xs: seq<string>): (r: seq<string>)
    ensures forall s :: s in r <==> s in acc || s in xs
    ensures Distinct(acc) ==> Distinct(r)
    decreases |xs|
  {
    if xs == [] then acc
    else Merge(if xs[0] in acc then acc else acc + [xs[0]], xs[1..])
  }

  /** The consumers: services carrying a registered decorating tag, by registration order, then declaration order. */
  function Consumers(acc: seq<string>, order: seq<string>, index: map<string, seq<string>>): (r: seq<string>)
    ensures Distinct(acc) ==> Distinct(r)
    decreases |order|
  {
    if order == [] then acc
    else Consumers(if order[0] in index then Merge(acc, index[order[0]]) else acc, order[1..], index)
  }

  /** A consumer is processed exactly when it is listed under some registered decorating tag. */
  lemma {:induction false} ConsumersMembers(acc: seq<string>, order: seq<string>, index: map<string, seq<string>>, s: string)
    ensures s in Consumers(acc, order, index) <==> s in acc || exists t :: t in order && t in index && s in index[t]
    decreases |order|
  {
    if order != [] {
      var acc' := if order[0] in index then Merge(acc, index[order[0]]) else acc;
      ConsumersMembers(acc', order[1..], index, s);
      if s in Consumers(acc, order, index) && s !in acc && s !in acc' {
        var t :| t in order[1..] && t in index && s in index[t];
        assert t in order;
      }
      if exists t :: t in order && t in index && s in index[t] {
        var t :| t in order && t in index && s in index[t];
        if t != order[0] {
          assert t in order[1..];
        }
      }
    }
  }

  const PriorityTypes := {TInteger}

  /** The type checks `priority` (an int, 0 when absent) and a set `argument` (an int or a string) must pass. */
  predicate OccurrenceOk(occ: Props) {
    && TypeOf(GetOr(occ, "priority", Int(0))) in PriorityTypes
    && (IsSet(occ, "argument") ==> TypeOf(occ["argument"]) in ArgumentTypes)
  }

  /** The reference one occurrence of tag `tagName` on `sid` makes: `priority` and a set `argument` leave the residual properties. */
  function ReferenceOf(tagName: string, sid: string, occ: Props): (r: TagReference)
    requires OccurrenceOk(occ)
    ensures r.tagName == tagName && r.serviceId == sid
    ensures "priority" !in r.remaining
    ensures r.argument.Some? <==> IsSet(occ, "argument")
    ensures forall p | p in r.remaining :: p in occ && r.remaining[p] == occ[p]
    ensures forall p | p in occ && p != "priority" && !(p == "argument" && IsSet(occ, "argument")) :: p in r.remaining
  {
    var priority := GetOr(occ, "priority", Int(0));
    var rest := occ - {"priority"};
    if IsSet(rest, "argument") then
      TagReference(tagName, sid, priority.i, Some(ToArgKey(rest["argument"])), rest - {"argument"})
    else
      TagReference(tagName, sid, priority.i, None, rest)
  }

  /** The references of the occurrences of one tag on one service, rejecting an identity already in `seen`. */
  function OccurrenceReferences(tagName: string, sid: string, occs: seq<Props>, seen: set<TagIdentity>): Result<seq<TagReference>>
    decreases |occs|
  {
    if occs == [] then Ok([])
    else
      var occ := occs[0];
      :- AssertValueIsOfType(GetOr(occ, "priority", Int(0)), PriorityTypes, "priority", sid);
      :- if IsSet(occ, "argument") then AssertValueIsOfType(occ["argument"], ArgumentTypes, "argument", sid) else Pass;
      var ref := ReferenceOf(tagName, sid, occ);
      if ref.Identity() in seen then Err(DuplicateTagReference(tagName, sid, ref.argument))
      else
        var rest :- OccurrenceReferences(tagName, sid, occs[1..], seen + {ref.Identity()});
        Ok([ref] + rest)
  }

  /** All occurrences pass their type checks and no two of them (nor any of `seen`) share an identity. */
  ghost predicate OccurrencesAcceptable(tagName: string, sid: string, occs: seq<Props>, seen: set<TagIdentity>) {
    && (forall k :: 0 <= k < |occs| ==> OccurrenceOk(occs[k]))
    && (forall k :: 0 <= k < |occs| ==> ReferenceOf(tagName, sid, occs[k]).Identity() !in seen)
    && (forall i, j :: 0 <= i < j < |occs| ==> ReferenceOf(tagName, sid, occs[i]).argument != ReferenceOf(tagName, sid, occs[j]).argument)
  }

  /** Acceptable occurrences yield one reference per occurrence, in order. */
  lemma {:induction false} AcceptableOccurrencesResolve(tagName: string, sid: string, occs: seq<Props>, seen: set<TagIdentity>)
    requires OccurrencesAcceptable(tagName, sid, occs, seen)
    ensures OccurrenceReferences(tagName, sid, occs, seen).Ok?
    ensures var refs := OccurrenceReferences(tagName, sid, occs, seen).value;
      |refs| == |occs| && forall k :: 0 <= k < |occs| ==> refs[k] == ReferenceOf(tagName, sid, occs[k])
    decreases |occs|
  {
    if occs != [] {
      var ref := ReferenceOf(tagName, sid, occs[0]);
      var seen' := seen + {ref.Identity()};
      forall k | 0 <= k < |occs[1..]|
        ensures OccurrenceOk(occs[1..][k]) && ReferenceOf(tagName, sid, occs[1..][k]).Identity() !in seen'
      {
        assert occs[1..][k] == occs[k + 1];
      }
      forall i, j | 0 <= i < j < |occs[1..]|
        ensures ReferenceOf(tagName, sid, occs[1..][i]).argument != ReferenceOf(tagName, sid, occs[1..][j]).argument
      {
        assert occs[1..][i] == occs[i + 1] && occs[1..][j] == occs[j + 1];
      }
      AcceptableOccurrencesResolve(tagName, sid, occs[1..], seen');
      var refs := OccurrenceReferences(tagName, sid, occs, seen).value;
      forall k | 0 <= k < |occs| ensures refs[k] == ReferenceOf(tagName, sid, occs[k]) {
        if k > 0 {
          assert occs[k] == occs[1..][k - 1];
        }
      }
    }
  }

  /** Accepted occurrences are acceptable: each passed its checks and their identities are new and pairwise different. */
  lemma {:induction false} ResolvedOccurrencesAcceptable(tagName: string, sid: string, occs: seq<Props>, seen: set<TagIdentity>)
    requires OccurrenceReferences(tagName, sid, occs, seen).Ok?
    ensures OccurrencesAcceptable(tagName, sid, occs, seen)
    decreases |occs|
  {
    if occs != [] {
      var ref := ReferenceOf(tagName, sid, occs[0]);
      var seen' := seen + {ref.Identity()};
      ResolvedOccurrencesAcceptable(tagName, sid, occs[1..], seen');
      forall k | 0 <= k < |occs| ensures OccurrenceOk(occs[k]) && ReferenceOf(tagName, sid, occs[k]).Identity() !in seen {
        if k > 0 {
          assert occs[k] == occs[1..][k - 1];
        }
      }
      forall i, j | 0 <= i < j < |occs|
        ensures ReferenceOf(tagName, sid, occs[i]).argument != ReferenceOf(tagName, sid, occs[j]).argument
      {
        assert occs[j] == occs[1..][j - 1];
        if i > 0 {
          assert occs[i] == occs[1..][i - 1];
        }
      }
    }
  }

  /**
   * The occurrences of a decorating tag on one service are accepted exactly
   * when each passes its type checks and no two name the same argument (or
   * both none); then there is one reference per occurrence, in order.
   */
  lemma OccurrenceReferencesSpec(tagName: string, sid: string, occs: seq<Props>, seen: set<TagIdentity>)
    ensures OccurrenceReferences(tagName, sid, occs, seen).Ok? <==> OccurrencesAcceptable(tagName, sid, occs, seen)
    ensures OccurrenceReferences(tagName, sid, occs, seen).Ok? ==>
      var refs := OccurrenceReferences(tagName, sid, occs, seen).value;
      |refs| == |occs| && forall k :: 0 <= k < |occs| ==> refs[k] == ReferenceOf(tagName, sid, occs[k])
  {
    if OccurrencesAcceptable(tagName, sid, occs, seen) {
      AcceptableOccurrencesResolve(tagName, sid, occs, seen);
    }
    if OccurrenceReferences(tagName, sid, occs, seen).Ok? {
      ResolvedOccurrencesAcceptable(tagName, sid, occs, seen);
    }
  }

  /**
   * When every occurrence passes its type checks, a failure is the
   * duplicate error "Only one tag T allowed on service S[ and argument A]"
   * of the first occurrence whose identity was taken, by `seen` or by an
   * earlier occurrence naming the same argument (or none).
   */
  lemma {:induction false} OccurrenceReferencesDuplicate(tagName: string, sid: string, occs: seq<Props>, seen: set<TagIdentity>)
    requires forall k :: 0 <= k < |occs| ==> OccurrenceOk(occs[k])
    requires OccurrenceReferences(tagName, sid, occs, seen).Err?
    ensures exists j :: 0 <= j < |occs| && DuplicateAt(tagName, sid, occs, seen, j, OccurrenceReferences(tagName, sid, occs, seen).error)
    decreases |occs|
  {
    var ref := ReferenceOf(tagName, sid, occs[0]);
    var e := OccurrenceReferences(tagName, sid, occs, seen).error;
    if ref.Identity() in seen {
      assert occs[..0] == [];
      assert DuplicateAt(tagName, sid, occs, seen, 0, e);
    } else {
      var seen' := seen + {ref.Identity()};
      forall k | 0 <= k < |occs[1..]| ensures OccurrenceOk(occs[1..][k]) {
        assert occs[1..][k] == occs[k + 1];
      }
      OccurrenceReferencesDuplicate(tagName, sid, occs[1..], seen');
      var j :| 0 <= j < |occs[1..]| && DuplicateAt(tagName, sid, occs[1..], seen', j, e);
      DuplicateShift(tagName, sid, occs, seen, j, e);
    }
  }

  /**
   * Occurrence `j` is the first whose identity is taken, and `e` is its
   * duplicate error.
   */
  ghost predicate DuplicateAt(tagName: string, sid: string, occs: seq<Props>, seen: set<TagIdentity>, j: int, e: ConfigError)
    requires forall k :: 0 <= k < |occs| ==> OccurrenceOk(occs[k])
    requires 0 <= j < |occs|
  {
    var ref := ReferenceOf(tagName, sid, occs[j]);
    && OccurrencesAcceptable(tagName, sid, occs[..j], seen)
    && (ref.Identity() in seen || exists i :: 0 <= i < j && ReferenceOf(tagName, sid, occs[i]).argument == ref.argument)
    && e == DuplicateTagReference(tagName, sid, ref.argument)
  }

  /** A duplicate at `j` after the first occurrence, whose identity is new, is a duplicate at `j + 1` of the whole list. */
  lemma DuplicateShift(tagName: string, sid: string, occs: seq<Props>, seen: set<TagIdentity>, j: int, e: ConfigError)
    requires forall k :: 0 <= k < |occs| ==> OccurrenceOk(occs[k])
    requires 0 <= j < |occs| - 1
    requires ReferenceOf(tagName, sid, occs[0]).Identity() !in seen
    requires DuplicateAt(tagName, sid, occs[1..], seen + {ReferenceOf(tagName, sid, occs[0]).Identity()}, j, e)
    ensures DuplicateAt(tagName, sid, occs, seen, j + 1, e)
  {
    var id0 := ReferenceOf(tagName, sid, occs[0]).Identity();
    var seen' := seen + {id0};
    var pre, pre' := occs[..j + 1], occs[1..][..j];
    assert forall k :: 0 <= k < j ==> pre'[k] == pre[k + 1];
    assert occs[1..][j] == occs[j + 1];
    var ref := ReferenceOf(tagName, sid, occs[j + 1]);
    forall k | 0 <= k < |pre| ensures ReferenceOf(tagName, sid, pre[k]).Identity() !in seen {
      if k > 0 { assert ReferenceOf(tagName, sid, pre'[k - 1]).Identity() !in seen'; }
    }
    forall i, k | 0 <= i < k < |pre|
      ensures ReferenceOf(tagName, sid, pre[i]).argument != ReferenceOf(tagName, sid, pre[k]).argument
    {
      if i > 0 {
        assert ReferenceOf(tagName, sid, pre'[i - 1]).argument != ReferenceOf(tagName, sid, pre'[k - 1]).argument;
      } else {
        assert ReferenceOf(tagName, sid, pre'[k - 1]).Identity() != id0;
      }
    }
    assert OccurrencesAcceptable(tagName, sid, pre, seen);
    if ref.Identity() in seen' && ref.Identity() !in seen {
      assert ReferenceOf(tagName, sid, occs[0]).argument == ref.argument;
    } else if ref.Identity() !in seen {
      var i :| 0 <= i < j && ReferenceOf(tagName, sid, occs[1..][i]).argument == ref.argument;
      assert occs[1..][i] == occs[i + 1];
    }
  }

  /** The references a consumer declares: its registered decorating tags in declaration order, each tag's occurrences in order. */
  function ReferencesFromService(reg: Registry, sid: string, tags: Tags, names: seq<string>): Result<seq<TagReference>>
    decreases |names|
  {
    if names == [] then Ok([])
    else if names[0] !in reg.entries then ReferencesFromService(reg, sid, tags, names[1..])
    else
      var refs :- OccurrenceReferences(names[0], sid, tags.Get(names[0]), {});
      var rest :- ReferencesFromService(reg, sid, tags, names[1..]);
      Ok(refs + rest)
  }

  /** Drops the references decorated by an earlier run. */
  function Unprocessed(refs: seq<TagReference>, processed: set<Processed>): (r: seq<TagReference>)
    ensures forall x :: x in r <==> x in refs && DecoratedTag(x.Identity()) !in processed
  {
    if refs == [] then []
    else
      var rest := Unprocessed(refs[1..], processed);
      if DecoratedTag(refs[0].Identity()) in processed then rest else [refs[0]] + rest
  }

  /** `resolveTagsToProcess`, flattened: the new references of every consumer, consumer by consumer. */
  function ResolvedReferences(reg: Registry, defs: map<string, Definition>, processed: set<Processed>, sids: seq<string>): Result<seq<TagReference>>
    decreases |sids|
  {
    if sids == [] then Ok([])
    else if sids[0] !in defs then Err(ServiceNotFound(sids[0]))
    else
      var tags := defs[sids[0]].tags;
      var refs :- ReferencesFromService(reg, sids[0], tags, tags.names);
      var rest :- ResolvedReferences(reg, defs, processed, sids[1..]);
      Ok(Unprocessed(refs, processed) + rest)
  }

  /** No two references share an identity. */
  ghost predicate DistinctIdentities(refs: seq<TagReference>) {
    forall i, j :: 0 <= i < j < |refs| ==> refs[i].Identity() != refs[j].Identity()
  }

  /** Every reference names a registered decorating tag that service `sid` declares. */
  ghost predicate DeclaredBy(refs: seq<TagReference>, reg: Registry, sid: string, tags: Tags) {
    forall x | x in refs :: x.tagName in reg.entries && x.serviceId == sid && tags.Has(x.tagName)
  }

  lemma DistinctIdentitiesAppend(a: seq<TagReference>, b: seq<TagReference>)
    requires DistinctIdentities(a) && DistinctIdentities(b)
    requires forall x, y | x in a && y in b :: x.Identity() != y.Identity()
    ensures DistinctIdentities(a + b)
  {
    forall i, j | 0 <= i < j < |a + b| ensures (a + b)[i].Identity() != (a + b)[j].Identity() {
      if j < |a| {
      } else if i < |a| {
        assert (a + b)[i] in a && (a + b)[j] in b;
      } else {
        assert (a + b)[i] == b[i - |a|] && (a + b)[j] == b[j - |a|];
      }
    }
  }

  /** The references of one tag's occurrences carry that tag and service and have distinct identities. */
  lemma OccurrenceReferencesDistinct(tagName: string, sid: string, occs: seq<Props>)
    requires OccurrenceReferences(tagName, sid, occs, {}).Ok?
    ensures var refs := OccurrenceReferences(tagName, sid, occs, {}).value;
      DistinctIdentities(refs) && forall x | x in refs :: x.tagName == tagName && x.serviceId == sid
  {
    OccurrenceReferencesSpec(tagName, sid, occs, {});
    var refs := OccurrenceReferences(tagName, sid, occs, {}).value;
    forall i, j | 0 <= i < j < |refs| ensures refs[i].Identity() != refs[j].Identity() {
      assert refs[i] == ReferenceOf(tagName, sid, occs[i]) && refs[j] == ReferenceOf(tagName, sid, occs[j]);
    }
  }

  /**
   * The references of one consumer are distinct occurrences of registered
   * decorating tags the consumer declares, given its tag names are distinct.
   */
  lemma {:induction false} ReferencesFromServiceSound(reg: Registry, sid: string, tags: Tags, names: seq<string>)
    requires Distinct(names)
    requires forall n | n in names :: n in tags.occurrences
    requires ReferencesFromService(reg, sid, tags, names).Ok?
    ensures var refs := ReferencesFromService(reg, sid, tags, names).value;
      DistinctIdentities(refs) && DeclaredBy(refs, reg, sid, tags) && forall x | x in refs :: x.tagName in names
    decreases |names|
  {
    if names != [] {
      assert Distinct(names[1..]) by {
        forall i, j | 0 <= i < j < |names[1..]| ensures names[1..][i] != names[1..][j] {
          assert names[1..][i] == names[i + 1] && names[1..][j] == names[j + 1];
        }
      }
      ReferencesFromServiceSound(reg, sid, tags, names[1..]);
      if names[0] in reg.entries {
        var head := OccurrenceReferences(names[0], sid, tags.Get(names[0]), {}).value;
        var rest := ReferencesFromService(reg, sid, tags, names[1..]).value;
        OccurrenceReferencesDistinct(names[0], sid, tags.Get(names[0]));
        assert names[0] !in names[1..];
        DistinctIdentitiesAppend(head, rest);
      }
    }
  }

  lemma DistinctIdentitiesUnprocessed(refs: seq<TagReference>, processed: set<Processed>)
    requires DistinctIdentities(refs)
    ensures DistinctIdentities(Unprocessed(refs, processed))
  {
    if refs != [] {
      DistinctIdentitiesUnprocessed(refs[1..], processed);
      var rest := Unprocessed(refs[1..], processed);
      if DecoratedTag(refs[0].Identity()) !in processed {
        forall y | y in rest ensures refs[0].Identity() != y.Identity() {
          var k :| 0 <= k < |refs[1..]| && refs[1..][k] == y;
          assert refs[k + 1] == y;
        }
        DistinctIdentitiesAppend([refs[0]], rest);
      }
    }
  }

  /** Every reference to decorate is new, names a registered tag its service declares, and is the only one with its identity. */
  ghost predicate ResolvedSound(refs: seq<TagReference>, reg: Registry, defs: map<string, Definition>, processed: set<Processed>, sids: seq<string>) {
    && DistinctIdentities(refs)
    && forall x | x in refs ::
         && x.tagName in reg.entries
         && x.serviceId in sids && x.serviceId in defs
         && defs[x.serviceId].tags.Has(x.tagName)
         && DecoratedTag(x.Identity()) !in processed
  }

  /**
   * What `resolveTagsToProcess` yields: only new references, each naming a
   * registered decorating tag its consumer declares, no two the same.
   */
  lemma {:induction false} ResolvedReferencesSound(reg: Registry, defs: map<string, Definition>, processed: set<Processed>, sids: seq<string>)
    requires Distinct(sids)
    requires forall id | id in defs :: defs[id].tags.Valid()
    requires ResolvedReferences(reg, defs, processed, sids).Ok?
    ensures ResolvedSound(ResolvedReferences(reg, defs, processed, sids).value, reg, defs, processed, sids)
    decreases |sids|
  {
    if sids != [] {
      var sid := sids[0];
      var tags := defs[sid].tags;
      assert Distinct(sids[1..]) by {
        forall i, j | 0 <= i < j < |sids[1..]| ensures sids[1..][i] != sids[1..][j] {
          assert sids[1..][i] == sids[i + 1] && sids[1..][j] == sids[j + 1];
        }
      }
      assert sid !in sids[1..];
      ResolvedReferencesSound(reg, defs, processed, sids[1..]);
      var refs := ReferencesFromService(reg, sid, tags, tags.names).value;
      var rest := ResolvedReferences(reg, defs, processed, sids[1..]).value;
      ReferencesFromServiceSound(reg, sid, tags, tags.names);
      DistinctIdentitiesUnprocessed(refs, processed);
      DistinctIdentitiesAppend(Unprocessed(refs, processed), rest);
    }
  }

  // ---------------------------------------------------------------------------
  // resolveAliasForServiceArgument

  /** `<service>.<hash((string) argument)>`; `hash` stands for sha1. */
  function AliasId(ref: TagReference, hash: string -> string): string
    requires ref.argument.Some?
  {
    ref.serviceId + "." + hash(ArgString(ref.argument.value))
  }

  /**
   * The service an argument-scoped reference decorates: an alias of what the
   * argument slot references, created once; the slot is rewritten to the alias.
   */
  function ResolveAlias(gs: GraphState, ref: TagReference, hash: string -> string): (r: Result<(string, GraphState)>)
    requires ref.argument.Some?
    ensures r.Ok? <==>
      || AliasId(ref, hash) in gs.aliases
      || (ref.serviceId in gs.defs && ref.argument.value in gs.defs[ref.serviceId].args && gs.defs[ref.serviceId].args[ref.argument.value].Ref?)
    ensures r.Ok? ==> r.value.0 == AliasId(ref, hash) && r.value.1.store == gs.store
    ensures r.Ok? && AliasId(ref, hash) in gs.aliases ==> r.value.1 == gs
    ensures r.Ok? && AliasId(ref, hash) !in gs.aliases ==>
      var (sid, k, alias) := (ref.serviceId, ref.argument.value, AliasId(ref, hash));
      && r.value.1.aliases == gs.aliases[alias := gs.defs[sid].args[k].id]
      && r.value.1.ids == Without(gs.ids, alias)
      && r.value.1.defs == (gs.defs - {alias})[sid := gs.defs[sid].(args := gs.defs[sid].args[k := Ref(alias)])]
    ensures r.Err? ==> r.error == (if ref.serviceId in gs.defs then ArgumentNotReference(ref.argument.value, ref.serviceId) else ServiceNotFound(ref.serviceId))
  {
    var alias := AliasId(ref, hash);
    if alias in gs.aliases then Ok((alias, gs))
    else
      var d :- gs.Find(ref.serviceId);
      var k := ref.argument.value;
      if k !in d.args || !d.args[k].Ref? then Err(ArgumentNotReference(k, ref.serviceId))
      else Ok((alias, gs.SetAlias(alias, d.args[k].id).SetArgument(ref.serviceId, k, Ref(alias))))
  }

  /** Resolving the same reference again reuses the alias and changes nothing. */
  lemma ResolveAliasIdempotent(gs: GraphState, ref: TagReference, hash: string -> string)
    requires ref.argument.Some? && ResolveAlias(gs, ref, hash).Ok?
    ensures var (alias, gs') := ResolveAlias(gs, ref, hash).value;
      ResolveAlias(gs', ref, hash) == Ok((alias, gs'))
  {
  }

  // ---------------------------------------------------------------------------
  // decorateServiceForTag

  /** `addTag($name, $props)` for each of `occs`, in order. */
  function AddOccurrences(t: Tags, name: string, occs: seq<Props>): (r: Tags)
    ensures t.Valid() ==> r.Valid()
    ensures r.Get(name) == t.Get(name) + occs
    ensures forall n :: n != name ==> r.Get(n) == t.Get(n) && (r.Has(n) <==> t.Has(n))
    decreases |occs|
  {
    if occs == [] then t
    else
      assert t.Get(name) + occs == t.Get(name) + [occs[0]] + occs[1..];
      AddOccurrences(t.Add(name, occs[0]), name, occs[1..])
  }

  /** Adds every occurrence of `extra` under the listed names, name by name. */
  function AddAll(t: Tags, extra: Tags, names: seq<string>): (r: Tags)
    ensures t.Valid() ==> r.Valid()
    decreases |names|
  {
    if names == [] then t
    else AddAll(AddOccurrences(t, names[0], extra.Get(names[0])), extra, names[1..])
  }

  /** With distinct names, each name's occurrences end up after the ones `t` already had. */
  lemma {:induction false} AddAllGet(t: Tags, extra: Tags, names: seq<string>, n: string)
    requires Distinct(names)
    ensures AddAll(t, extra, names).Get(n) == t.Get(n) + (if n in names then extra.Get(n) else [])
    decreases |names|
  {
    if names != [] {
      var t' := AddOccurrences(t, names[0], extra.Get(names[0]));
      assert Distinct(names[1..]) by {
        forall i, j | 0 <= i < j < |names[1..]| ensures names[1..][i] != names[1..][j] {
          assert names[1..][i] == names[i + 1] && names[1..][j] == names[j + 1];
        }
      }
      AddAllGet(t', extra, names[1..], n);
      if n == names[0] {
        assert n !in names[1..];
      }
    }
  }

  function DecoratingId(decorated: string, ref: TagReference): string {
    decorated + "." + ref.tagName
  }

  /** The child of the template that decorates `decorated` for one reference. */
  function DecoratingDefinition(decorated: string, dd: DecoratorDefinition, ref: TagReference, templateTags: Tags, extra: Tags): Definition {
    Definition(
      false, None, Some(dd.serviceId),
      map[dd.argument := Ref(DecoratingId(decorated, ref) + ".inner")],
      [],
      AddAll(templateTags, extra, extra.names),
      Some(Decoration(decorated, ref.priority)))
  }

  /** `decorateServiceForTag`: defines `<decorated>.<tag>` as a child of the template. */
  ghost function Decorate(gs: GraphState, decorated: string, dd: DecoratorDefinition, ref: TagReference, tag: string): (r: Result<GraphState>)
    ensures r.Ok? <==> dd.serviceId in gs.defs && ReconstructTags(ref.remaining).Ok?
    ensures r.Ok? ==> r.value == gs.SetDefinition(DecoratingId(decorated, ref),
      DecoratingDefinition(decorated, dd, ref, gs.defs[dd.serviceId].tags.Remove(tag), ReconstructTags(ref.remaining).value))
    ensures r.Err? && dd.serviceId !in gs.defs ==> r.error == ServiceNotFound(dd.serviceId)
    ensures r.Err? && dd.serviceId in gs.defs ==> r == ReconstructTags(ref.remaining).PropagateFailure()
  {
    var template :- gs.Find(dd.serviceId);
    var extra :- ReconstructTags(ref.remaining);
    Ok(gs.SetDefinition(DecoratingId(decorated, ref), DecoratingDefinition(decorated, dd, ref, template.tags.Remove(tag), extra)))
  }

  /**
   * The synthesized definition: a non-abstract child of the template with no
   * class and no calls, its slot holding `<id>.inner`, decorating
   * `decorated` at the reference's priority, carrying the template's tags
   * except the pass tag followed by the tags the residual properties encode.
   */
  lemma DecoratingDefinitionShape(gs: GraphState, decorated: string, dd: DecoratorDefinition, ref: TagReference, tag: string, n: string)
    requires Decorate(gs, decorated, dd, ref, tag).Ok?
    requires gs.Valid()
    ensures var gs' := Decorate(gs, decorated, dd, ref, tag).value;
      var id := decorated + "." + ref.tagName;
      && gs'.Valid()
      && id in gs'.defs
      && gs'.defs[id].parent == Some(dd.serviceId) && !gs'.defs[id].isAbstract && gs'.defs[id].className == None
      && gs'.defs[id].args == map[dd.argument := Ref(id + ".inner")] && gs'.defs[id].calls == []
      && gs'.defs[id].decorates == Some(Decoration(decorated, ref.priority))
      && gs'.defs[id].tags.Get(n) ==
           (if n == tag then [] else gs.defs[dd.serviceId].tags.Get(n))
           + NamedOccurrences(GroupTable(ref.remaining), Ascending(GroupTable(ref.remaining).Keys), n)
      && (forall other | other != id :: (other in gs'.defs <==> other in gs.defs) && (other in gs.defs ==> gs'.defs[other] == gs.defs[other]))
      && gs'.aliases == gs.aliases - {id} && gs'.store == gs.store
  {
    var extra := ReconstructTags(ref.remaining).value;
    ReconstructTagsCollects(ref.remaining, n);
    AddAllGet(gs.defs[dd.serviceId].tags.Remove(tag), extra, extra.names, n);
    if n !in extra.names {
      assert !extra.Has(n);
    }
  }

  // ---------------------------------------------------------------------------
  // decorateServices and process

  /** Decorates the service a reference targets, resolving the argument alias first. */
  ghost function DecorateReference(gs: GraphState, reg: Registry, ref: TagReference, tag: string, hash: string -> string): (r: Result<GraphState>)
    requires ref.tagName in reg.entries
    ensures r.Ok? ==> r.value.store == gs.store
  {
    var target :- if ref.argument.Some? then ResolveAlias(gs, ref, hash) else Ok((ref.serviceId, gs));
    Decorate(target.1, target.0, reg.entries[ref.tagName], ref, tag)
  }

  /** `decorateServices`: each reference in turn, each remembered in the processed set once decorated. */
  ghost function DecorateAll(gs: GraphState, reg: Registry, refs: seq<TagReference>, tag: string, hash: string -> string): Result<GraphState>
    requires ProcessedTagsKey(tag) in gs.store.sets
    requires forall x | x in refs :: x.tagName in reg.entries
    decreases |refs|
  {
    if refs == [] then Ok(gs)
    else
      var gs' :- DecorateReference(gs, reg, refs[0], tag, hash);
      DecorateAll(gs'.MarkProcessed(ProcessedTagsKey(tag), DecoratedTag(refs[0].Identity())), reg, refs[1..], tag, hash)
  }

  /**
   * One step of the decoration loop: a failure of reference `i` is the
   * failure of the rest of the loop; a success leaves the rest of the loop
   * to run from the decorated graph with the reference remembered.
   */
  lemma DecorateAllStep(cur: GraphState, reg: Registry, refs: seq<TagReference>, i: nat, tag: string, hash: string -> string, r: Status, gs: GraphState)
    requires ProcessedTagsKey(tag) in cur.store.sets
    requires forall x | x in refs :: x.tagName in reg.entries
    requires i < |refs|
    requires Reflects(r, DecorateReference(cur, reg, refs[i], tag, hash), gs)
    ensures r.Fail? ==> Reflects(r, DecorateAll(cur, reg, refs[i..], tag, hash), gs)
    ensures r.Pass? ==> ProcessedTagsKey(tag) in gs.store.sets
    ensures r.Pass? ==>
      DecorateAll(cur, reg, refs[i..], tag, hash) == DecorateAll(gs.MarkProcessed(ProcessedTagsKey(tag), DecoratedTag(refs[i].Identity())), reg, refs[i + 1..], tag, hash)
  {
    assert refs[i..][1..] == refs[i + 1..];
  }

  /** The identities of the references, as processed-set elements. */
  ghost function Marks(refs: seq<TagReference>): set<Processed> {
    set x | x in refs :: DecoratedTag(x.Identity())
  }

  /**
   * After decorating, the processed set holds exactly what it held before
   * plus every decorated reference; the registries and the other sets are
   * untouched.
   */
  lemma {:induction false} DecorateAllRemembers(gs: GraphState, reg: Registry, refs: seq<TagReference>, tag: string, hash: string -> string)
    requires ProcessedTagsKey(tag) in gs.store.sets
    requires forall x | x in refs :: x.tagName in reg.entries
    requires DecorateAll(gs, reg, refs, tag, hash).Ok?
    ensures var gs' := DecorateAll(gs, reg, refs, tag, hash).value;
      gs'.store == gs.store.(sets := gs.store.sets[ProcessedTagsKey(tag) := gs.store.sets[ProcessedTagsKey(tag)] + Marks(refs)])
    decreases |refs|
  {
    if refs != [] {
      var key := ProcessedTagsKey(tag);
      var m := DecoratedTag(refs[0].Identity());
      var gs1 := DecorateReference(gs, reg, refs[0], tag, hash).value;
      var gs2 := gs1.MarkProcessed(key, m);
      assert gs2.store == gs.store.(sets := gs.store.sets[key := gs.store.sets[key] + {m}]);
      assert DecorateAll(gs, reg, refs, tag, hash) == DecorateAll(gs2, reg, refs[1..], tag, hash);
      DecorateAllRemembers(gs2, reg, refs[1..], tag, hash);
      MarksCons(refs);
      StoreMarked(gs.store, gs2.store, key, m, Marks(refs[1..]));
    } else {
      var key := ProcessedTagsKey(tag);
      assert Marks(refs) == {};
      assert gs.store.sets[key] + {} == gs.store.sets[key];
      assert gs.store.sets[key := gs.store.sets[key]] == gs.store.sets;
    }
  }

  lemma MarksCons(refs: seq<TagReference>)
    requires refs != []
    ensures Marks(refs) == {DecoratedTag(refs[0].Identity())} + Marks(refs[1..])
  {
    assert forall x :: x in refs <==> x == refs[0] || x in refs[1..];
  }

  lemma StoreMarked(s: Store, s2: Store, key: string, m: Processed, more: set<Processed>)
    requires key in s.sets
    requires s2 == s.(sets := s.sets[key := s.sets[key] + {m}])
    ensures s2.(sets := s2.sets[key := s2.sets[key] + more]) == s.(sets := s.sets[key := s.sets[key] + ({m} + more)])
  {
    assert s.sets[key] + {m} + more == s.sets[key] + ({m} + more);
    assert s2.sets[key := s2.sets[key] + more] == s.sets[key := s.sets[key] + ({m} + more)];
  }

  /** Decorating keeps the graph well formed: every definition's tags stay a proper ordered map. */
  lemma {:induction false} DecorateAllKeepsValid(gs: GraphState, reg: Registry, refs: seq<TagReference>, tag: string, hash: string -> string)
    requires gs.Valid()
    requires ProcessedTagsKey(tag) in gs.store.sets
    requires forall x | x in refs :: x.tagName in reg.entries
    requires DecorateAll(gs, reg, refs, tag, hash).Ok?
    ensures DecorateAll(gs, reg, refs, tag, hash).value.Valid()
    decreases |refs|
  {
    if refs != [] {
      var gs1 := DecorateReference(gs, reg, refs[0], tag, hash).value;
      DecorateReferenceKeepsValid(gs, reg, refs[0], tag, hash);
      DecorateAllKeepsValid(gs1.MarkProcessed(ProcessedTagsKey(tag), DecoratedTag(refs[0].Identity())), reg, refs[1..], tag, hash);
    }
  }

  lemma DecorateReferenceKeepsValid(gs: GraphState, reg: Registry, ref: TagReference, tag: string, hash: string -> string)
    requires gs.Valid()
    requires ref.tagName in reg.entries
    requires DecorateReference(gs, reg, ref, tag, hash).Ok?
    ensures DecorateReference(gs, reg, ref, tag, hash).value.Valid()
  {
    var target := if ref.argument.Some? then ResolveAlias(gs, ref, hash).value else (ref.serviceId, gs);
    assert target.1.Valid();
    var dd := reg.entries[ref.tagName];
    assert target.1.defs[dd.serviceId].tags.Valid();
  }

  /** The state after the registry and the processed set are obtained and the templates registered, and the references still to decorate. */
  ghost function Prepare(gs: GraphState, index: map<string, seq<string>>, tag: string): (r: Result<(GraphState, Registry, seq<TagReference>)>)
    requires tag in index
    ensures r.Ok? ==> ProcessedTagsKey(tag) in r.value.0.store.sets && forall x | x in r.value.2 :: x.tagName in r.value.1.entries
  {
    var gs1 := gs.EnsureRegistry(RegistryKey(tag)).EnsureSet(ProcessedTagsKey(tag));
    var reg :- RegisterTemplates(gs1.store.registries[RegistryKey(tag)], gs1.defs, tag, index[tag]);
    var gs2 := gs1.WithRegistry(RegistryKey(tag), reg);
    var sids := Consumers([], reg.order, index);
    var refs :- ResolvedReferences(reg, gs2.defs, gs2.store.sets[ProcessedTagsKey(tag)], sids);
    ResolvedRegistered(reg, gs2.defs, gs2.store.sets[ProcessedTagsKey(tag)], sids);
    Ok((gs2, reg, refs))
  }

  /**
   * Preparing keeps the definitions, gets or creates the processed set, and
   * yields only references that are not in it, no two the same.
   */
  lemma PrepareSound(gs: GraphState, index: map<string, seq<string>>, tag: string)
    requires tag in index
    requires forall id | id in gs.defs :: gs.defs[id].tags.Valid()
    requires Prepare(gs, index, tag).Ok?
    ensures var (gs', _, refs) := Prepare(gs, index, tag).value;
      var key := ProcessedTagsKey(tag);
      && gs'.Valid() == gs.Valid() && gs'.defs == gs.defs
      && gs'.store.sets == gs.store.sets[key := if key in gs.store.sets then gs.store.sets[key] else {}]
      && DistinctIdentities(refs)
      && forall y | y in refs :: DecoratedTag(y.Identity()) !in gs'.store.sets[key]
  {
    var gs1 := gs.EnsureRegistry(RegistryKey(tag)).EnsureSet(ProcessedTagsKey(tag));
    var reg := RegisterTemplates(gs1.store.registries[RegistryKey(tag)], gs1.defs, tag, index[tag]).value;
    var gs2 := gs1.WithRegistry(RegistryKey(tag), reg);
    var sids := Consumers([], reg.order, index);
    ResolvedReferencesSound(reg, gs2.defs, gs2.store.sets[ProcessedTagsKey(tag)], sids);
  }
  /** Resolved references only name registered decorating tags. */
  lemma {:induction false} ResolvedRegistered(reg: Registry, defs: map<string, Definition>, processed: set<Processed>, sids: seq<string>)
    ensures ResolvedReferences(reg, defs, processed, sids).Ok? ==> forall x | x in ResolvedReferences(reg, defs, processed, sids).value :: x.tagName in reg.entries
    decreases |sids|
  {
    if sids != [] && sids[0] in defs {
      ResolvedRegistered(reg, defs, processed, sids[1..]);
      var tags := defs[sids[0]].tags;
      if ReferencesFromService(reg, sids[0], tags, tags.names).Ok? {
        ReferencesRegistered(reg, sids[0], tags, tags.names);
      }
    }
  }

  lemma {:induction false} ReferencesRegistered(reg: Registry, sid: string, tags: Tags, names: seq<string>)
    requires ReferencesFromService(reg, sid, tags, names).Ok?
    ensures forall x | x in ReferencesFromService(reg, sid, tags, names).value :: x.tagName in reg.entries
    decreases |names|
  {
    if names != [] {
      ReferencesRegistered(reg, sid, tags, names[1..]);
      if names[0] in reg.entries {
        OccurrenceReferencesSpec(names[0], sid, tags.Get(names[0]), {});
      }
    }
  }

  /** `process`: nothing happens unless some service carries the pass tag. */
  ghost function PassResult(gs: GraphState, tag: string, hash: string -> string): Result<GraphState> {
    var index := TagIndex(gs);
    if tag !in index then Ok(gs)
    else
      var p :- Prepare(gs, index, tag);
      DecorateAll(p.0, p.1, p.2, tag, hash)
  }

  /** Without a service carrying the pass tag the pass creates no registry, no processed set, nothing. */
  lemma NothingToDoWithoutTemplates(gs: GraphState, tag: string, hash: string -> string)
    requires gs.Valid()
    requires forall id | id in gs.defs :: !gs.defs[id].tags.Has(tag)
    ensures PassResult(gs, tag, hash) == Ok(gs)
  {
    TagIndexContents(gs);
  }

  /** The references a run would decorate, if it gets that far. */
  ghost function PendingReferences(gs: GraphState, tag: string): seq<TagReference> {
    var index := TagIndex(gs);
    if tag in index && Prepare(gs, index, tag).Ok? then Prepare(gs, index, tag).value.2 else []
  }

  /** What a run decorates is never already in its processed set, and never twice. */
  lemma PendingAreUnprocessed(gs: GraphState, tag: string)
    requires gs.Valid()
    ensures DistinctIdentities(PendingReferences(gs, tag))
    ensures forall y | y in PendingReferences(gs, tag) ::
      ProcessedTagsKey(tag) in gs.store.sets ==> DecoratedTag(y.Identity()) !in gs.store.sets[ProcessedTagsKey(tag)]
  {
    var index := TagIndex(gs);
    if tag in index && Prepare(gs, index, tag).Ok? {
      PrepareSound(gs, index, tag);
    }
  }

  /**
   * A successful run leaves a well-formed graph whose processed set holds
   * what it held before plus every reference the run decorated.
   */
  lemma RunRemembersDecorated(gs: GraphState, tag: string, hash: string -> string)
    requires gs.Valid()
    requires PassResult(gs, tag, hash).Ok?
    ensures var gs' := PassResult(gs, tag, hash).value;
      var key := ProcessedTagsKey(tag);
      && gs'.Valid()
      && (PendingReferences(gs, tag) != [] ==> key in gs'.store.sets)
      && (key in gs'.store.sets ==> Marks(PendingReferences(gs, tag)) <= gs'.store.sets[key])
      && (key in gs.store.sets ==> key in gs'.store.sets && gs.store.sets[key] <= gs'.store.sets[key])
  {
    var index := TagIndex(gs);
    if tag in index {
      var p := Prepare(gs, index, tag).value;
      PrepareSound(gs, index, tag);
      DecorateAllRemembers(p.0, p.1, p.2, tag, hash);
      DecorateAllKeepsValid(p.0, p.1, p.2, tag, hash);
    }
  }

  /**
   * A second run never decorates again a reference the first run decorated:
   * it only decorates references that are new.
   */
  lemma SecondRunSkipsDecorated(gs: GraphState, tag: string, hash: string -> string)
    requires gs.Valid()
    requires PassResult(gs, tag, hash).Ok?
    ensures var gs' := PassResult(gs, tag, hash).value;
      forall x, y | x in PendingReferences(gs, tag) && y in PendingReferences(gs', tag) :: x.Identity() != y.Identity()
  {
    var gs' := PassResult(gs, tag, hash).value;
    RunRemembersDecorated(gs, tag, hash);
    PendingAreUnprocessed(gs', tag);
    forall x, y | x in PendingReferences(gs, tag) && y in PendingReferences(gs', tag) ensures x.Identity() != y.Identity() {
      assert DecoratedTag(x.Identity()) in Marks(PendingReferences(gs, tag));
    }
  }

  // ---------------------------------------------------------------------------
  // The pass object

  /** `acc` in front of a successful result; an error stays as it is. */
  function Prefixed(acc: seq<TagReference>, r: Result<seq<TagReference>>): Result<seq<TagReference>> {
    if r.Ok? then Ok(acc + r.value) else r
  }

  /** One consumer of the loop in `resolveTagsToProcess`. */
  lemma ResolvedReferencesStep(reg: Registry, defs: map<string, Definition>, processed: set<Processed>, sids: seq<string>, acc: seq<TagReference>)
    requires sids != [] && sids[0] in defs
    ensures var refs := ReferencesFromService(reg, sids[0], defs[sids[0]].tags, defs[sids[0]].tags.names);
      && (refs.Err? ==> ResolvedReferences(reg, defs, processed, sids) == Err(refs.error))
      && (refs.Ok? ==>
            Prefixed(acc, ResolvedReferences(reg, defs, processed, sids))
            == Prefixed(acc + Unprocessed(refs.value, processed), ResolvedReferences(reg, defs, processed, sids[1..])))
  {
    var rest := ResolvedReferences(reg, defs, processed, sids[1..]);
    var refs := ReferencesFromService(reg, sids[0], defs[sids[0]].tags, defs[sids[0]].tags.names);
    if refs.Ok? && rest.Ok? {
      var u := Unprocessed(refs.value, processed);
      assert acc + (u + rest.value) == (acc + u) + rest.value;
    }
  }

  /** `addTag($name, $props)` for each of `occs`, in order. */
  method AddTagOccurrences(t: Tags, name: string, occs: seq<Props>) returns (r: Tags)
    ensures r == AddOccurrences(t, name, occs)
  {
    r := t;
    var j := 0;
    while j < |occs|
      invariant 0 <= j <= |occs|
      invariant AddOccurrences(t, name, occs) == AddOccurrences(r, name, occs[j..])
    {
      assert occs[j..][1..] == occs[j + 1..];
      r := r.Add(name, occs[j]);
      j := j + 1;
    }
  }

  /** `addTag` for every occurrence of every tag of `extra`, in its order. */
  method AddTags(t: Tags, extra: Tags) returns (r: Tags)
    ensures r == AddAll(t, extra, extra.names)
  {
    r := t;
    var i := 0;
    while i < |extra.names|
      invariant 0 <= i <= |extra.names|
      invariant AddAll(t, extra, extra.names) == AddAll(r, extra, extra.names[i..])
    {
      assert extra.names[i..][1..] == extra.names[i + 1..];
      r := AddTagOccurrences(r, extra.names[i], extra.Get(extra.names[i]));
      i := i + 1;
    }
  }

  /** The decorator pass for one pass tag; `hash` is the digest used to name argument aliases. */
  class DecoratorPass {
    const tag: string
    const hash: string -> string
    var tagToServicesMap: map<string, seq<string>>

    constructor (tag: string, hash: string -> string)
      ensures this.tag == tag && this.hash == hash && tagToServicesMap == map[]
    {
      this.tag := tag;
      this.hash := hash;
      tagToServicesMap := map[];
    }

    /**
     * `process`: the graph ends up in the state the specification gives, or
     * the run fails with the error it gives; the index is dropped either way.
     */
    method Process(g: Graph) returns (r: Status)
      requires g.Valid()
      modifies this, g
      ensures Reflects(r, PassResult(old(g.State()), tag, hash), g.State())
      ensures tagToServicesMap == map[]
    {
      tagToServicesMap := BuildMapOfTagsAndServiceIds(g);
      if tag !in tagToServicesMap {
        tagToServicesMap := map[];
        return Pass;
      }
      ghost var gs0 := g.State();
      var registryKey := RegistryKey(tag);
      if registryKey !in g.store.registries {
        g.SetStore(g.store.(registries := g.store.registries[registryKey := EmptyRegistry]));
      }
      var processedKey := ProcessedTagsKey(tag);
      if processedKey !in g.store.sets {
        g.SetStore(g.store.(sets := g.store.sets[processedKey := {}]));
      }
      assert g.State() == gs0.EnsureRegistry(registryKey).EnsureSet(processedKey);
      var reg := BuildMapOfDecorators(g, g.store.registries[registryKey]);
      if reg.Err? {
        tagToServicesMap := map[];
        return Fail(reg.error);
      }
      g.SetStore(g.store.(registries := g.store.registries[registryKey := reg.value]));
      var refs := ResolveTagsToProcess(g, reg.value);
      if refs.Err? {
        tagToServicesMap := map[];
        return Fail(refs.error);
      }
      ResolvedRegistered(reg.value, g.defs, g.store.sets[processedKey], Consumers([], reg.value.order, tagToServicesMap));
      assert Prepare(gs0, tagToServicesMap, tag) == Ok((g.State(), reg.value, refs.value));
      r := DecorateServices(g, reg.value, refs.value);
      tagToServicesMap := map[];
    }

    /** `buildMapOfDecorators`: registers every template carrying the pass tag, service by service, occurrence by occurrence. */
    method BuildMapOfDecorators(g: Graph, registry: Registry) returns (r: Result<Registry>)
      requires tag in tagToServicesMap
      ensures r == RegisterTemplates(registry, g.defs, tag, tagToServicesMap[tag])
    {
      var ids := tagToServicesMap[tag];
      var reg := registry;
      var i := 0;
      while i < |ids|
        invariant 0 <= i <= |ids|
        invariant RegisterTemplates(registry, g.defs, tag, ids) == RegisterTemplates(reg, g.defs, tag, ids[i..])
      {
        var id := ids[i];
        assert ids[i..][1..] == ids[i + 1..];
        if id !in g.defs {
          return Err(ServiceNotFound(id));
        }
        var d := g.defs[id];
        var occs := d.tags.Get(tag);
        var before := reg;
        var j := 0;
        while j < |occs|
          invariant 0 <= j <= |occs|
          invariant RegisterTemplatesOf(before, d, id, occs) == RegisterTemplatesOf(reg, d, id, occs[j..])
        {
          assert occs[j..][1..] == occs[j + 1..];
          var next := RegisterTemplate(reg, d, id, occs[j]);
          if next.Err? {
            return Err(next.error);
          }
          reg := next.value;
          j := j + 1;
        }
        i := i + 1;
      }
      r := Ok(reg);
    }

    /** The consumers: `merge` of the services of every registered decorating tag in use. */
    method ServicesToProcess(reg: Registry) returns (sids: seq<string>)
      ensures sids == Consumers([], reg.order, tagToServicesMap)
    {
      sids := [];
      var i := 0;
      while i < |reg.order|
        invariant 0 <= i <= |reg.order|
        invariant Consumers([], reg.order, tagToServicesMap) == Consumers(sids, reg.order[i..], tagToServicesMap)
      {
        assert reg.order[i..][1..] == reg.order[i + 1..];
        if reg.order[i] in tagToServicesMap {
          sids := Merge(sids, tagToServicesMap[reg.order[i]]);
        }
        i := i + 1;
      }
    }

    /** `resolveTagsToProcess`: the new references of every consumer, consumer by consumer. */
    method ResolveTagsToProcess(g: Graph, reg: Registry) returns (r: Result<seq<TagReference>>)
      requires ProcessedTagsKey(tag) in g.store.sets
      ensures r == ResolvedReferences(reg, g.defs, g.store.sets[ProcessedTagsKey(tag)], Consumers([], reg.order, tagToServicesMap))
    {
      var sids := ServicesToProcess(reg);
      var processed := g.store.sets[ProcessedTagsKey(tag)];
      var acc := [];
      var i := 0;
      assert sids[0..] == sids;
      ghost var all := ResolvedReferences(reg, g.defs, processed, sids);
      assert all.Ok? ==> [] + all.value == all.value;
      while i < |sids|
        invariant 0 <= i <= |sids|
        invariant ResolvedReferences(reg, g.defs, processed, sids) == Prefixed(acc, ResolvedReferences(reg, g.defs, processed, sids[i..]))
      {
        var sid := sids[i];
        assert sids[i..][1..] == sids[i + 1..];
        if sid !in g.defs {
          return Err(ServiceNotFound(sid));
        }
        var tags := g.defs[sid].tags;
        var refs := ReferencesFromService(reg, sid, tags, tags.names);
        ResolvedReferencesStep(reg, g.defs, processed, sids[i..], acc);
        if refs.Err? {
          return Err(refs.error);
        }
        acc := acc + Unprocessed(refs.value, processed);
        i := i + 1;
      }
      assert acc + [] == acc;
      r := Ok(acc);
    }

    /** `decorateServices`: each reference in turn, remembered in the processed set once decorated. */
    method DecorateServices(g: Graph, reg: Registry, refs: seq<TagReference>) returns (r: Status)
      requires g.Valid()
      requires ProcessedTagsKey(tag) in g.store.sets
      requires forall x | x in refs :: x.tagName in reg.entries
      modifies g
      ensures Reflects(r, DecorateAll(old(g.State()), reg, refs, tag, hash), g.State())
    {
      var key := ProcessedTagsKey(tag);
      var i := 0;
      while i < |refs|
        invariant 0 <= i <= |refs|
        invariant key in g.store.sets
        invariant DecorateAll(old(g.State()), reg, refs, tag, hash) == DecorateAll(g.State(), reg, refs[i..], tag, hash)
      {
        ghost var cur := g.State();
        r := DecorateTagReference(g, reg, refs[i]);
        DecorateAllStep(cur, reg, refs, i, tag, hash, r, g.State());
        if r.Fail? {
          return;
        }
        g.SetStore(g.store.(sets := g.store.sets[key := g.store.sets[key] + {DecoratedTag(refs[i].Identity())}]));
        i := i + 1;
      }
      r := Pass;
    }

    /** One reference of `decorateServices`: resolve the argument alias if there is one, then decorate its target. */
    method DecorateTagReference(g: Graph, reg: Registry, ref: TagReference) returns (r: Status)
      requires ref.tagName in reg.entries
      modifies g
      ensures Reflects(r, DecorateReference(old(g.State()), reg, ref, tag, hash), g.State())
    {
      var decorated := ref.serviceId;
      if ref.argument.Some? {
        var alias := ResolveAliasForServiceArgument(g, ref);
        if alias.Err? {
          return Fail(alias.error);
        }
        decorated := alias.value;
      }
      r := DecorateServiceForTag(g, decorated, reg.entries[ref.tagName], ref);
    }

    /** `resolveAliasForServiceArgument`: reuses or creates the argument's alias and returns it. */
    method ResolveAliasForServiceArgument(g: Graph, ref: TagReference) returns (r: Result<string>)
      requires ref.argument.Some?
      modifies g
      ensures var spec := ResolveAlias(old(g.State()), ref, hash);
        && (r.Ok? <==> spec.Ok?)
        && (r.Ok? ==> r.value == spec.value.0 && g.State() == spec.value.1)
        && (r.Err? ==> r.error == spec.error)
    {
      var alias := AliasId(ref, hash);
      if alias in g.aliases {
        return Ok(alias);
      }
      var sid := ref.serviceId;
      if sid !in g.defs {
        return Err(ServiceNotFound(sid));
      }
      var k := ref.argument.value;
      var args := g.defs[sid].args;
      if k !in args || !args[k].Ref? {
        return Err(ArgumentNotReference(k, sid));
      }
      g.SetAlias(alias, args[k].id);
      g.SetArgument(sid, k, Ref(alias));
      r := Ok(alias);
    }

    /** `decorateServiceForTag`: defines `<decorated>.<tag>` as a child of the template. */
    method DecorateServiceForTag(g: Graph, decorated: string, dd: DecoratorDefinition, ref: TagReference) returns (r: Status)
      modifies g
      ensures Reflects(r, Decorate(old(g.State()), decorated, dd, ref, tag), g.State())
    {
      if dd.serviceId !in g.defs {
        return Fail(ServiceNotFound(dd.serviceId));
      }
      var templateTags := g.defs[dd.serviceId].tags.Remove(tag);
      var extra := ReconstructTagsFromFlat(ref.remaining);
      if extra.Err? {
        return Fail(extra.error);
      }
      var id := DecoratingId(decorated, ref);
      var tags := AddTags(templateTags, extra.value);
      var child := Definition(false, None, Some(dd.serviceId), map[dd.argument := Ref(id + ".inner")], [], tags, Some(Decoration(decorated, ref.priority)));
      g.SetDefinition(id, child);
      r := Pass;
    }
  }
}
