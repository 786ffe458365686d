/**
 * Shared helpers of the passes: tag reconstruction from the flat
 * `i<group>_<property>` encoding, the tag-to-services index, and the
 * get-or-create store of processed items.
 */
module Functions {
  import opened Values
  import opened Errors
  import opened Digits
  import opened Container

  // ---------------------------------------------------------------------------
  // The flat key syntax `^i(?<group>\d+)_(?<property>.*)`

  /** Length of the longest prefix of `s` made of digits. */
  function DigitRun(s: string): (n: nat)
    ensures n <= |s|
    ensures forall i :: 0 <= i < n ==> IsDigit(s[i])
    ensures n < |s| ==> !IsDigit(s[n])
  {
    if s == [] || !IsDigit(s[0]) then 0 else 1 + DigitRun(s[1..])
  }

  /**
   * The part of `s` before its first newline: what `.*` matches, since the
   * pattern has no `s` modifier and `.` then does not match a newline.
   */
  function FirstLine(s: string): (r: string)
    ensures r <= s && '\n' !in r
    ensures |r| < |s| ==> s[|r|] == '\n'
  {
    if s == [] || s[0] == '\n' then [] else [s[0]] + FirstLine(s[1..])
  }

  /** A line followed by nothing or by a newline is its own first line. */
  lemma {:induction false} FirstLineOfLine(p: string, rest: string)
    requires '\n' !in p
    requires rest == [] || rest[0] == '\n'
    ensures FirstLine(p + rest) == p
  {
    if p != [] {
      assert (p + rest)[1..] == p[1..] + rest;
      FirstLineOfLine(p[1..], rest);
    }
  }

  datatype FlatKey = FlatKey(group: nat, property: string)

  /** The group and property a key encodes, or None for a key the pattern does not match. */
  function ParseKey(k: string): Option<FlatKey> {
    if |k| == 0 || k[0] != 'i' then None
    else
      var n := DigitRun(k[1..]);
      if n == 0 || |k| <= 1 + n || k[1 + n] != '_' || !Canonical(k[1..1 + n]) then None
      else Some(FlatKey(DigitsValue(k[1..1 + n]), FirstLine(k[2 + n..])))
  }

  /** The key under which property `p` of group `g` is written. */
  function FlatKeyName(g: nat, p: string): string {
    "i" + NatToDigits(g) + "_" + p
  }

  /**
   * `k` reads as property `p` of group `g`: it is the written form of `p`,
   * alone or followed by a newline and anything after it.
   */
  ghost predicate Spells(k: string, g: nat, p: string) {
    var w := FlatKeyName(g, p);
    '\n' !in p && w <= k && (|w| == |k| || k[|w|] == '\n')
  }

  lemma {:induction false} DigitRunOfDigits(d: string, rest: string)
    requires AllDigits(d)
    requires rest == [] || !IsDigit(rest[0])
    ensures DigitRun(d + rest) == |d|
  {
    if d != [] {
      assert (d + rest)[1..] == d[1..] + rest;
      DigitRunOfDigits(d[1..], rest);
    }
  }

  /**
   * Writing a key and parsing it back gives the group, and the property up
   * to its first newline: the whole property when it has none.
   */
  lemma FlatKeyNameParses(g: nat, p: string)
    ensures ParseKey(FlatKeyName(g, p)) == Some(FlatKey(g, FirstLine(p)))
    ensures '\n' !in p ==> ParseKey(FlatKeyName(g, p)) == Some(FlatKey(g, p))
  {
    var d := NatToDigits(g);
    var k := FlatKeyName(g, p);
    assert k[1..] == d + ("_" + p);
    DigitRunOfDigits(d, "_" + p);
    assert k[1..1 + |d|] == d;
    assert k[2 + |d|..] == p;
    NatToDigitsValue(g);
    if '\n' !in p {
      FirstLineOfLine(p, []);
      assert p + [] == p;
    }
  }

  /** Every key the pattern matches spells what it encodes. */
  lemma ParsedKeyIsFlatKeyName(k: string)
    requires ParseKey(k).Some?
    ensures Spells(k, ParseKey(k).value.group, ParseKey(k).value.property)
  {
    var n := DigitRun(k[1..]);
    var d, rest := k[1..1 + n], k[2 + n..];
    CanonicalRoundTrip(d);
    assert k == FlatKeyName(DigitsValue(d), rest);
    SpellsFirstLine(DigitsValue(d), rest);
  }

  /** A key spells its group and the first line of what follows the underscore. */
  lemma SpellsFirstLine(g: nat, rest: string)
    ensures Spells(FlatKeyName(g, rest), g, FirstLine(rest))
  {
    var head, p := "i" + NatToDigits(g) + "_", FirstLine(rest);
    assert FlatKeyName(g, rest) == head + rest;
    assert FlatKeyName(g, p) == head + p;
    assert p == rest[..|p|];
    if |p| < |rest| {
      assert (head + rest)[|head| + |p|] == rest[|p|];
    }
  }

  /** Every key that spells a property of a group is read as that property. */
  lemma SpelledKeyParses(k: string, g: nat, p: string)
    requires Spells(k, g, p)
    ensures ParseKey(k) == Some(FlatKey(g, p))
  {
    var w := FlatKeyName(g, p);
    var rest := k[|w|..];
    assert k == w + rest;
    assert FlatKeyName(g, p + rest) == k;
    FlatKeyNameParses(g, p + rest);
    FirstLineOfLine(p, rest);
  }

  lemma FlatKeyNameInjective(g: nat, p: string, g': nat, p': string)
    requires FlatKeyName(g, p) == FlatKeyName(g', p')
    ensures g == g' && p == p'
  {
    FlatKeyNameParses(g, p);
    FlatKeyNameParses(g', p');
    var n := |NatToDigits(g)|;
    assert FlatKeyName(g, p)[2 + n..] == p;
    assert FlatKeyName(g', p')[2 + n..] == p';
  }

  // ---------------------------------------------------------------------------
  // The order in which the model visits the flat keys

  /** Lexicographic order on strings, by character code. */
  predicate Before(a: string, b: string)
    decreases |a|
  {
    if a == [] then b != []
    else b != [] && (a[0] < b[0] || (a[0] == b[0] && Before(a[1..], b[1..])))
  }

  lemma {:induction false} BeforeIrreflexive(a: string)
    ensures !Before(a, a)
    decreases |a|
  {
    if a != [] {
      BeforeIrreflexive(a[1..]);
    }
  }

  lemma {:induction false} BeforeTransitive(a: string, b: string, c: string)
    requires Before(a, b) && Before(b, c)
    ensures Before(a, c)
    decreases |a|
  {
    if a != [] && a[0] == b[0] && b[0] == c[0] {
      BeforeTransitive(a[1..], b[1..], c[1..]);
    }
  }

  lemma {:induction false} BeforeTotal(a: string, b: string)
    requires a != b
    ensures Before(a, b) || Before(b, a)
    decreases |a|
  {
    if a != [] && b != [] && a[0] == b[0] {
      assert a == [a[0]] + a[1..] && b == [b[0]] + b[1..];
      BeforeTotal(a[1..], b[1..]);
    }
  }

  lemma AllBefore(s: set<string>, y: string, x: string)
    requires forall z :: z in s && z != y ==> Before(z, y)
    requires Before(y, x)
    ensures forall z :: z in s ==> Before(z, x)
  {
    forall z | z in s ensures Before(z, x) {
      if z != y {
        BeforeTransitive(z, y, x);
      }
    }
  }

  lemma AllAfter(s: set<string>, y: string, x: string)
    requires forall z :: z in s && z != y ==> Before(y, z)
    requires Before(x, y)
    ensures forall z :: z in s ==> Before(x, z)
  {
    forall z | z in s ensures Before(x, z) {
      if z != y {
        BeforeTransitive(x, y, z);
      }
    }
  }

  /** The key of `s` that comes last. */
  ghost function Latest(s: set<string>): (m: string)
    requires s != {}
    ensures m in s && forall x :: x in s && x != m ==> Before(x, m)
    decreases s
  {
    var x :| x in s;
    if s == {x} then x
    else
      var y := Latest(s - {x});
      BeforeTotal(x, y);
      if Before(x, y) then y else AllBefore(s - {x}, y, x); x
  }

  /** The key of `s` that comes first. */
  ghost function Earliest(s: set<string>): (m: string)
    requires s != {}
    ensures m in s && forall x :: x in s && x != m ==> Before(m, x)
    decreases s
  {
    var x :| x in s;
    if s == {x} then x
    else
      var y := Earliest(s - {x});
      BeforeTotal(x, y);
      if Before(y, x) then y else AllAfter(s - {x}, y, x); x
  }

  /** A key that comes after every other key of `s` is the latest. */
  lemma LatestIs(s: set<string>, m: string)
    requires m in s && forall x :: x in s && x != m ==> Before(x, m)
    ensures Latest(s) == m
  {
    var l := Latest(s);
    if l != m {
      BeforeTransitive(l, m, l);
      BeforeIrreflexive(l);
    }
  }

  // ---------------------------------------------------------------------------
  // reconstructTags: specification

  /** The keys of `props` that the pattern reads as property `p` of group `g`. */
  ghost function Denoting(props: Props, g: nat, p: string): set<string> {
    set k | k in props && ParseKey(k) == Some(FlatKey(g, p))
  }

  /** The group numbers that occur in matching keys. */
  ghost function Groups(props: Props): set<nat> {
    set k | k in props && ParseKey(k).Some? :: ParseKey(k).value.group
  }

  ghost function PropertyNames(props: Props, g: nat): set<string> {
    set k | k in props && ParseKey(k).Some? && ParseKey(k).value.group == g :: ParseKey(k).value.property
  }

  lemma PropertyNamesDenoted(props: Props, g: nat)
    ensures forall p :: p in PropertyNames(props, g) <==> Denoting(props, g, p) != {}
  {
    forall p ensures p in PropertyNames(props, g) <==> Denoting(props, g, p) != {} {
      if p in PropertyNames(props, g) {
        var k :| k in props && ParseKey(k).Some? && ParseKey(k).value.group == g && ParseKey(k).value.property == p;
        assert k in Denoting(props, g, p);
      }
      if Denoting(props, g, p) != {} {
        var k :| k in Denoting(props, g, p);
      }
    }
  }

  /**
   * Group `g` has property `p` exactly when some key spells it; when no key
   * holds a newline, exactly when the key `i<g>_<p>` is present.
   */
  lemma PropertyNamesAreKeys(props: Props, g: nat)
    ensures forall p :: p in PropertyNames(props, g) <==> exists k :: k in props && Spells(k, g, p)
    ensures (forall k | k in props :: '\n' !in k) ==>
      forall p :: p in PropertyNames(props, g) <==> FlatKeyName(g, p) in props
  {
    PropertyNamesDenoted(props, g);
    forall p ensures p in PropertyNames(props, g) <==> exists k :: k in props && Spells(k, g, p) {
      if p in PropertyNames(props, g) {
        var k :| k in Denoting(props, g, p);
        ParsedKeyIsFlatKeyName(k);
      }
      if exists k :: k in props && Spells(k, g, p) {
        var k :| k in props && Spells(k, g, p);
        SpelledKeyParses(k, g, p);
        assert k in Denoting(props, g, p);
      }
    }
    if forall k | k in props :: '\n' !in k {
      forall p ensures p in PropertyNames(props, g) <==> FlatKeyName(g, p) in props {
        if p in PropertyNames(props, g) {
          var k :| k in props && Spells(k, g, p);
          assert k == FlatKeyName(g, p);
        }
        var w := FlatKeyName(g, p);
        if w in props {
          assert '\n' !in p by {
            assert forall i :: 0 <= i < |p| ==> p[i] == w[|w| - |p| + i];
          }
          assert Spells(w, g, p);
        }
      }
    }
  }

  /** The properties of one group: each holds the value of the last key, in key order, that reads as it. */
  ghost function GroupOf(props: Props, g: nat): (m: Props)
    ensures forall p :: p in m <==> Denoting(props, g, p) != {}
    ensures forall p | p in m :: m[p] == props[Latest(Denoting(props, g, p))]
  {
    PropertyNamesDenoted(props, g);
    map p | p in PropertyNames(props, g) :: props[Latest(Denoting(props, g, p))]
  }

  /** The groups of a flat property map: group number to that group's properties. */
  ghost function GroupTable(props: Props): map<nat, Props> {
    map g | g in Groups(props) :: GroupOf(props, g)
  }

  ghost predicate StrictlyIncreasing(s: seq<nat>) {
    forall i, j :: 0 <= i < j < |s| ==> s[i] < s[j]
  }

  ghost function Min(s: set<nat>): (m: nat)
    requires s != {}
    ensures m in s && forall x :: x in s ==> m <= x
  {
    var x :| x in s;
    if s == {x} then x
    else
      var y := Min(s - {x});
      assert forall z :: z in s ==> z == x || z in s - {x};
      if x < y then x else y
  }

  /** The elements of a set of group numbers in ascending order: PHP's `ksort`. */
  ghost function Ascending(s: set<nat>): (r: seq<nat>)
    ensures forall x :: x in r <==> x in s
    ensures StrictlyIncreasing(r)
    decreases s
  {
    if s == {} then []
    else
      var m := Min(s);
      [m] + Ascending(s - {m})
  }

  /** Two ascending enumerations of the same elements are the same sequence. */
  lemma {:induction false} IncreasingUnique(a: seq<nat>, b: seq<nat>)
    requires StrictlyIncreasing(a) && StrictlyIncreasing(b)
    requires forall x :: x in a <==> x in b
    ensures a == b
  {
    if b != [] {
      assert b[0] in a;
    }
    if a != [] {
      assert b != [] by { assert a[0] in b; }
      assert a[0] == b[0] by {
        assert a[0] in b && b[0] in a;
      }
      forall x ensures x in a[1..] <==> x in b[1..] {
        if x in a[1..] {
          assert x in b && x != b[0];
        }
        if x in b[1..] {
          assert x in a && x != a[0];
        }
      }
      IncreasingUnique(a[1..], b[1..]);
      assert a == [a[0]] + a[1..] && b == [b[0]] + b[1..];
    }
  }

  /** Emits the groups `gs` in order: each becomes one occurrence of the tag its `name` property names. */
  ghost function EmitGroups(table: map<nat, Props>, gs: seq<nat>, acc: Tags): Result<Tags>
    requires forall g :: g in gs ==> g in table
  {
    if gs == [] then Ok(acc)
    else
      var tag := table[gs[0]];
      if !IsSet(tag, "name") then Err(NoTagName(gs[0]))
      else if !tag["name"].Str? then Err(TagNameNotString(gs[0]))
      else EmitGroups(table, gs[1..], acc.Add(tag["name"].s, tag - {"name"}))
  }

  /** `reconstructTags`: the tags a flat property map encodes. */
  ghost function ReconstructTags(props: Props): Result<Tags> {
    var table := GroupTable(props);
    EmitGroups(table, Ascending(table.Keys), NoTags)
  }

  /** A group number occurs exactly when at least one key of that group does. */
  lemma GroupsAreNonEmpty(props: Props, g: nat)
    ensures g in Groups(props) <==> GroupOf(props, g) != map[]
  {
    if g in Groups(props) {
      var k :| k in props && ParseKey(k).Some? && ParseKey(k).value.group == g;
      assert k in Denoting(props, g, ParseKey(k).value.property);
      assert ParseKey(k).value.property in GroupOf(props, g);
    }
    if GroupOf(props, g) != map[] {
      var p :| p in GroupOf(props, g);
      var k :| k in Denoting(props, g, p);
      assert k in props && ParseKey(k).Some?;
    }
  }

  /**
   * A table that has a property exactly where some key reads as it, holds
   * there the value of the last such key, and has no empty group, is the
   * group table.
   */
  lemma GroupTableIs(props: Props, groups: map<nat, Props>)
    requires forall g, p :: g in groups && p in groups[g] <==> Denoting(props, g, p) != {}
    requires forall g, p :: g in groups && p in groups[g] ==> groups[g][p] == props[Latest(Denoting(props, g, p))]
    requires forall g :: g in groups ==> groups[g] != map[]
    ensures groups == GroupTable(props)
  {
    GroupTableKeys(props, groups);
    forall g | g in groups ensures groups[g] == GroupOf(props, g) {
      GroupOfIs(props, g, groups[g]);
    }
  }

  /** Such a table has exactly the groups that occur in the keys. */
  lemma GroupTableKeys(props: Props, groups: map<nat, Props>)
    requires forall g, p :: g in groups && p in groups[g] <==> Denoting(props, g, p) != {}
    requires forall g :: g in groups ==> groups[g] != map[]
    ensures forall g :: g in groups <==> g in Groups(props)
  {
    forall g ensures g in groups <==> g in Groups(props) {
      if g in groups {
        var p :| p in groups[g];
        var k :| k in Denoting(props, g, p);
        assert k in props && ParseKey(k).Some?;
      }
      if g in Groups(props) {
        var k :| k in props && ParseKey(k).Some? && ParseKey(k).value.group == g;
        assert k in Denoting(props, g, ParseKey(k).value.property);
      }
    }
  }

  /** A property map holding, for each property some key reads as, the last such key's value is the group. */
  lemma GroupOfIs(props: Props, g: nat, m: Props)
    requires forall p :: p in m <==> Denoting(props, g, p) != {}
    requires forall p | p in m :: m[p] == props[Latest(Denoting(props, g, p))]
    ensures m == GroupOf(props, g)
  {
    var m' := GroupOf(props, g);
    assert forall p :: p in m <==> p in m';
  }

  /** Without newlines in the keys, the key `i<g>_<p>` is the only one that reads as `p` of group `g`. */
  lemma DenotingWithoutNewlines(props: Props, g: nat, p: string)
    requires forall k | k in props :: '\n' !in k
    ensures Denoting(props, g, p) == if FlatKeyName(g, p) in props then {FlatKeyName(g, p)} else {}
  {
    var w := FlatKeyName(g, p);
    forall k | k in Denoting(props, g, p) ensures k == w {
      ParsedKeyIsFlatKeyName(k);
    }
    if w in props {
      assert '\n' !in p by {
        assert forall i :: 0 <= i < |p| ==> p[i] == w[|w| - |p| + i];
      }
      SpelledKeyParses(w, g, p);
      assert w in Denoting(props, g, p);
    }
  }

  /**
   * Without newlines in the keys: a table holding exactly the flat keys'
   * values under their group and property, with no empty group, is the group
   * table.
   */
  lemma GroupTableWithoutNewlines(props: Props, groups: map<nat, Props>)
    requires forall k | k in props :: '\n' !in k
    requires forall g, p :: g in groups && p in groups[g] <==> FlatKeyName(g, p) in props
    requires forall g, p :: g in groups && p in groups[g] ==> groups[g][p] == props[FlatKeyName(g, p)]
    requires forall g :: g in groups ==> groups[g] != map[]
    ensures groups == GroupTable(props)
  {
    DenotedWithoutNewlines(props);
    LatestWithoutNewlines(props);
    GroupTableIs(props, groups);
  }

  /** Without newlines in the keys, `p` of group `g` is read exactly when `i<g>_<p>` is a key. */
  lemma DenotedWithoutNewlines(props: Props)
    requires forall k | k in props :: '\n' !in k
    ensures forall g, p :: FlatKeyName(g, p) in props <==> Denoting(props, g, p) != {}
  {
    forall g, p ensures FlatKeyName(g, p) in props <==> Denoting(props, g, p) != {} {
      DenotingWithoutNewlines(props, g, p);
    }
  }

  /** Without newlines in the keys, the last key read as `p` of group `g` is `i<g>_<p>`. */
  lemma LatestWithoutNewlines(props: Props)
    requires forall k | k in props :: '\n' !in k
    ensures forall g, p :: FlatKeyName(g, p) in props ==>
      Denoting(props, g, p) != {} && Latest(Denoting(props, g, p)) == FlatKeyName(g, p)
  {
    forall g, p | FlatKeyName(g, p) in props
      ensures Denoting(props, g, p) != {} && Latest(Denoting(props, g, p)) == FlatKeyName(g, p)
    {
      DenotingWithoutNewlines(props, g, p);
      LatestIs(Denoting(props, g, p), FlatKeyName(g, p));
    }
  }

  // ---------------------------------------------------------------------------
  // reconstructTags: the loops

  /** The keys outside `pending` were visited, and come before the keys in it. */
  ghost predicate VisitedFirst(props: Props, pending: set<string>) {
    forall a, b :: a in props && a !in pending && b in pending ==> Before(a, b)
  }

  /** `groups` holds exactly the properties some visited key reads as. */
  ghost predicate PresentExcept(props: Props, groups: map<nat, Props>, pending: set<string>) {
    forall g, p :: g in groups && p in groups[g] <==> Denoting(props, g, p) - pending != {}
  }

  /** Each property holds the value of the last visited key that reads as it. */
  ghost predicate ValuesExcept(props: Props, groups: map<nat, Props>, pending: set<string>)
    requires PresentExcept(props, groups, pending)
  {
    forall g, p :: g in groups && p in groups[g] ==> groups[g][p] == props[Latest(Denoting(props, g, p) - pending)]
  }

  ghost predicate NoEmptyGroup(groups: map<nat, Props>) {
    forall g :: g in groups ==> groups[g] != map[]
  }

  /**
   * The keys outside `pending` come before the keys in it and are sorted
   * into `groups`: each property holds the value of the last visited key
   * that reads as it, and no group is empty.
   */
  ghost predicate GroupedExcept(props: Props, groups: map<nat, Props>, pending: set<string>) {
    && VisitedFirst(props, pending)
    && PresentExcept(props, groups, pending)
    && ValuesExcept(props, groups, pending)
    && NoEmptyGroup(groups)
  }

  /**
   * First loop: sorts the flat keys into their groups, skipping keys the
   * pattern does not match; a later key overwrites an earlier one read as the
   * same property.
   */
  method GroupFlatKeys(props: Props) returns (groups: map<nat, Props>)
    ensures groups == GroupTable(props)
  {
    groups := map[];
    var pending := props.Keys;
    while pending != {}
      invariant pending <= props.Keys
      invariant GroupedExcept(props, groups, pending)
      decreases pending
    {
      ghost var first := Earliest(pending);
      var k :| k in pending && forall x :: x in pending && x != k ==> Before(k, x);
      var parsed := ParseKey(k);
      if parsed.Some? {
        var g, p := parsed.value.group, parsed.value.property;
        var current := if g in groups then groups[g] else map[];
        GroupParsedKey(props, groups, pending, k, g, p);
        assert groups[g := current[p := props[k]]] == Put(groups, g, p, props[k]);
        groups := groups[g := current[p := props[k]]];
      } else {
        GroupUnparsedKey(props, groups, pending, k);
      }
      pending := pending - {k};
    }
    forall g, p ensures Denoting(props, g, p) - pending == Denoting(props, g, p) { }
    GroupTableIs(props, groups);
  }

  /** Visiting the earliest pending key keeps the visited keys first. */
  lemma VisitEarliest(props: Props, pending: set<string>, k: string)
    requires k in pending
    requires forall x :: x in pending && x != k ==> Before(k, x)
    requires VisitedFirst(props, pending)
    ensures VisitedFirst(props, pending - {k})
  {
  }

  /** Visiting `k` adds it to the keys read as its own group and property, and to no others. */
  lemma VisitDenoting(props: Props, pending: set<string>, k: string, g: nat, p: string, g': nat, p': string)
    requires k in pending && k in props
    requires ParseKey(k) == Some(FlatKey(g, p))
    ensures Denoting(props, g', p') - (pending - {k}) ==
      if g' == g && p' == p then (Denoting(props, g, p) - pending) + {k} else Denoting(props, g', p') - pending
  {
  }

  /** The visited key `k`, read as `p` of group `g`, is the last visited key read as it. */
  lemma VisitedKeyIsLatest(props: Props, pending: set<string>, k: string, g: nat, p: string)
    requires k in pending && k in props
    requires VisitedFirst(props, pending)
    requires ParseKey(k) == Some(FlatKey(g, p))
    ensures k in Denoting(props, g, p) - (pending - {k})
    ensures Latest(Denoting(props, g, p) - (pending - {k})) == k
  {
    var visited := Denoting(props, g, p) - (pending - {k});
    VisitDenoting(props, pending, k, g, p, g, p);
    LatestIs(visited, k);
  }

  /** `groups` with `v` stored as property `p` of group `g`, the group created when missing. */
  ghost function Put(groups: map<nat, Props>, g: nat, p: string, v: Scalar): (r: map<nat, Props>)
    ensures g in r && p in r[g] && r[g][p] == v
    ensures forall g', p' :: g' in r && p' in r[g'] <==> (g' == g && p' == p) || (g' in groups && p' in groups[g'])
    ensures forall g', p' :: g' in groups && p' in groups[g'] && (g' != g || p' != p) ==> r[g'][p'] == groups[g'][p']
    ensures forall g' :: g' in r && g' != g ==> g' in groups && r[g'] == groups[g']
  {
    groups[g := (if g in groups then groups[g] else map[])[p := v]]
  }

  /** Storing the visited key's value keeps `groups` holding exactly the properties read so far. */
  lemma VisitPresent(props: Props, groups: map<nat, Props>, pending: set<string>, k: string, g: nat, p: string)
    requires k in pending && k in props
    requires ParseKey(k) == Some(FlatKey(g, p))
    requires PresentExcept(props, groups, pending)
    ensures PresentExcept(props, Put(groups, g, p, props[k]), pending - {k})
  {
    var groups' := Put(groups, g, p, props[k]);
    forall g', p' ensures g' in groups' && p' in groups'[g'] <==> Denoting(props, g', p') - (pending - {k}) != {} {
      VisitDenoting(props, pending, k, g, p, g', p');
    }
  }

  /** Storing the visited key's value keeps every property at the value of the last key read as it. */
  lemma VisitValues(props: Props, groups: map<nat, Props>, pending: set<string>, k: string, g: nat, p: string)
    requires k in pending && k in props
    requires ParseKey(k) == Some(FlatKey(g, p))
    requires VisitedFirst(props, pending)
    requires PresentExcept(props, groups, pending) && ValuesExcept(props, groups, pending)
    requires PresentExcept(props, Put(groups, g, p, props[k]), pending - {k})
    ensures ValuesExcept(props, Put(groups, g, p, props[k]), pending - {k})
  {
    var groups' := Put(groups, g, p, props[k]);
    forall g', p' | g' in groups' && p' in groups'[g']
      ensures groups'[g'][p'] == props[Latest(Denoting(props, g', p') - (pending - {k}))]
    {
      if g' == g && p' == p {
        VisitedKeyIsLatest(props, pending, k, g, p);
      } else {
        VisitDenoting(props, pending, k, g, p, g', p');
      }
    }
  }

  /** The earliest pending key, read as `p` of group `g`, becomes the value of `groups[g][p]`. */
  lemma GroupParsedKey(props: Props, groups: map<nat, Props>, pending: set<string>, k: string, g: nat, p: string)
    requires pending <= props.Keys && k in pending
    requires forall x :: x in pending && x != k ==> Before(k, x)
    requires GroupedExcept(props, groups, pending)
    requires ParseKey(k) == Some(FlatKey(g, p))
    ensures GroupedExcept(props, Put(groups, g, p, props[k]), pending - {k})
  {
    VisitEarliest(props, pending, k);
    VisitPresent(props, groups, pending, k, g, p);
    VisitValues(props, groups, pending, k, g, p);
  }

  /** A key outside the pattern changes nothing. */
  lemma GroupUnparsedKey(props: Props, groups: map<nat, Props>, pending: set<string>, k: string)
    requires k in pending
    requires forall x :: x in pending && x != k ==> Before(k, x)
    requires GroupedExcept(props, groups, pending)
    requires ParseKey(k).None?
    ensures GroupedExcept(props, groups, pending - {k})
  {
    VisitEarliest(props, pending, k);
    forall g', p' ensures Denoting(props, g', p') - (pending - {k}) == Denoting(props, g', p') - pending {
      assert k !in Denoting(props, g', p');
    }
  }

  /** Second loop, `ksort`: the group numbers in ascending order. */
  method SortGroups(keys: set<nat>) returns (order: seq<nat>)
    ensures order == Ascending(keys)
  {
    order := [];
    var unsorted := keys;
    while unsorted != {}
      invariant forall x :: x in order || x in unsorted <==> x in keys
      invariant forall x :: x in order ==> x !in unsorted
      invariant StrictlyIncreasing(order)
      invariant forall i, x :: 0 <= i < |order| && x in unsorted ==> order[i] < x
      decreases unsorted
    {
      ghost var least := Min(unsorted);
      var m :| m in unsorted && forall x :: x in unsorted ==> m <= x;
      order := order + [m];
      unsorted := unsorted - {m};
    }
    IncreasingUnique(order, Ascending(keys));
  }

  /** `reconstructTags`: groups, sorts, then emits one tag occurrence per group. */
  method ReconstructTagsFromFlat(props: Props) returns (r: Result<Tags>)
    ensures r == ReconstructTags(props)
  {
    var groups := GroupFlatKeys(props);
    var order := SortGroups(groups.Keys);
    var tags := NoTags;
    var i := 0;
    while i < |order|
      invariant 0 <= i <= |order|
      invariant EmitGroups(groups, order, NoTags) == EmitGroups(groups, order[i..], tags)
    {
      var tag := groups[order[i]];
      assert order[i..][1..] == order[i + 1..];
      if !IsSet(tag, "name") {
        return Err(NoTagName(order[i]));
      }
      if !tag["name"].Str? {
        return Err(TagNameNotString(order[i]));
      }
      tags := tags.Add(tag["name"].s, tag - {"name"});
      i := i + 1;
    }
    r := Ok(tags);
  }

  // ---------------------------------------------------------------------------
  // reconstructTags: properties

  /** A group that can be emitted: its `name` is set and is a string. */
  ghost predicate WellNamed(tag: Props) {
    IsSet(tag, "name") && tag["name"].Str?
  }

  /** The occurrences groups `gs` contribute to tag `n`: each group named `n`, without its name. */
  ghost function NamedOccurrences(table: map<nat, Props>, gs: seq<nat>, n: string): seq<Props>
    requires forall g :: g in gs ==> g in table
  {
    if gs == [] then []
    else
      var tag := table[gs[0]];
      (if IsSet(tag, "name") && tag["name"] == Str(n) then [tag - {"name"}] else [])
        + NamedOccurrences(table, gs[1..], n)
  }

  lemma {:induction false} NamedOccurrencesNonEmpty(table: map<nat, Props>, gs: seq<nat>, n: string)
    requires forall g :: g in gs ==> g in table
    ensures NamedOccurrences(table, gs, n) != [] <==>
      exists g :: g in gs && IsSet(table[g], "name") && table[g]["name"] == Str(n)
  {
    if gs != [] {
      NamedOccurrencesNonEmpty(table, gs[1..], n);
      forall g | g in gs ensures g == gs[0] || g in gs[1..] {
        var i :| 0 <= i < |gs| && gs[i] == g;
        if i > 0 { assert gs[1..][i - 1] == g; }
      }
    }
  }

  /** Emission succeeds exactly when every group is well named. */
  lemma {:induction false} EmitGroupsOk(table: map<nat, Props>, gs: seq<nat>, acc: Tags)
    requires forall g :: g in gs ==> g in table
    ensures EmitGroups(table, gs, acc).Ok? <==> forall g :: g in gs ==> WellNamed(table[g])
  {
    if gs != [] {
      assert gs == [gs[0]] + gs[1..];
      var tag := table[gs[0]];
      if WellNamed(tag) {
        EmitGroupsOk(table, gs[1..], acc.Add(tag["name"].s, tag - {"name"}));
      }
    }
  }

  /** Emission keeps the tags well formed. */
  lemma {:induction false} EmitGroupsValid(table: map<nat, Props>, gs: seq<nat>, acc: Tags)
    requires forall g :: g in gs ==> g in table
    requires EmitGroups(table, gs, acc).Ok? && acc.Valid()
    ensures EmitGroups(table, gs, acc).value.Valid()
  {
    if gs != [] {
      var tag := table[gs[0]];
      EmitGroupsValid(table, gs[1..], acc.Add(tag["name"].s, tag - {"name"}));
    }
  }

  /** After a successful emission each tag has collected, in order, the groups that name it. */
  lemma {:induction false} EmitGroupsCollects(table: map<nat, Props>, gs: seq<nat>, acc: Tags, n: string)
    requires forall g :: g in gs ==> g in table
    requires EmitGroups(table, gs, acc).Ok?
    ensures EmitGroups(table, gs, acc).value.Get(n) == acc.Get(n) + NamedOccurrences(table, gs, n)
  {
    if gs != [] {
      var tag := table[gs[0]];
      EmitGroupsStep(table, gs, acc);
      var acc' := acc.Add(tag["name"].s, tag - {"name"});
      EmitGroupsCollects(table, gs[1..], acc', n);
      NamedOccurrencesStep(table, gs, n);
      var own := if tag["name"] == Str(n) then [tag - {"name"}] else [];
      assert acc'.Get(n) == acc.Get(n) + own;
      AppendAssociative(acc.Get(n), own, NamedOccurrences(table, gs[1..], n));
    }
  }

  lemma AppendAssociative<T>(a: seq<T>, b: seq<T>, c: seq<T>)
    ensures (a + b) + c == a + (b + c)
  {
  }

  /** A successful emission names its first group and goes on with the rest. */
  lemma EmitGroupsStep(table: map<nat, Props>, gs: seq<nat>, acc: Tags)
    requires forall g :: g in gs ==> g in table
    requires gs != [] && EmitGroups(table, gs, acc).Ok?
    ensures WellNamed(table[gs[0]])
    ensures var tag := table[gs[0]];
      EmitGroups(table, gs, acc) == EmitGroups(table, gs[1..], acc.Add(tag["name"].s, tag - {"name"}))
  {
  }

  /** The occurrences a well-named first group contributes come before those of the rest. */
  lemma NamedOccurrencesStep(table: map<nat, Props>, gs: seq<nat>, n: string)
    requires forall g :: g in gs ==> g in table
    requires gs != [] && WellNamed(table[gs[0]])
    ensures var tag := table[gs[0]];
      NamedOccurrences(table, gs, n) == (if tag["name"] == Str(n) then [tag - {"name"}] else []) + NamedOccurrences(table, gs[1..], n)
  {
  }

  /** After a successful emission a tag exists when it did before or some group names it. */
  lemma {:induction false} EmitGroupsHas(table: map<nat, Props>, gs: seq<nat>, acc: Tags, n: string)
    requires forall g :: g in gs ==> g in table
    requires EmitGroups(table, gs, acc).Ok?
    ensures EmitGroups(table, gs, acc).value.Has(n) <==> acc.Has(n) || NamedOccurrences(table, gs, n) != []
  {
    if gs != [] {
      var tag := table[gs[0]];
      var acc' := acc.Add(tag["name"].s, tag - {"name"});
      EmitGroupsHas(table, gs[1..], acc', n);
    }
  }

  /** Group `gs[i]` is the first badly named one, and `e` says why. */
  ghost predicate FirstBadGroup(table: map<nat, Props>, gs: seq<nat>, i: int, e: ConfigError)
    requires forall g :: g in gs ==> g in table
  {
    && 0 <= i < |gs|
    && !WellNamed(table[gs[i]])
    && (forall j :: 0 <= j < i ==> WellNamed(table[gs[j]]))
    && e == (if IsSet(table[gs[i]], "name") then TagNameNotString(gs[i]) else NoTagName(gs[i]))
  }

  /** Emission fails on the first badly named group, with the error that says why. */
  lemma {:induction false} EmitGroupsErr(table: map<nat, Props>, gs: seq<nat>, acc: Tags)
    requires forall g :: g in gs ==> g in table
    requires EmitGroups(table, gs, acc).Err?
    ensures exists i :: FirstBadGroup(table, gs, i, EmitGroups(table, gs, acc).error)
  {
    var tag := table[gs[0]];
    if WellNamed(tag) {
      EmitGroupsErr(table, gs[1..], acc.Add(tag["name"].s, tag - {"name"}));
      var i :| FirstBadGroup(table, gs[1..], i, EmitGroups(table, gs[1..], acc.Add(tag["name"].s, tag - {"name"})).error);
      forall j | 0 <= j < i + 1 ensures WellNamed(table[gs[j]]) {
        if j > 0 { assert gs[j] == gs[1..][j - 1]; }
      }
      assert gs[i + 1] == gs[1..][i];
      assert FirstBadGroup(table, gs, i + 1, EmitGroups(table, gs, acc).error);
    } else {
      assert FirstBadGroup(table, gs, 0, EmitGroups(table, gs, acc).error);
    }
  }

  /** `reconstructTags` succeeds exactly when every group has a string name. */
  lemma ReconstructTagsOk(props: Props)
    ensures ReconstructTags(props).Ok? <==> forall g :: g in GroupTable(props) ==> WellNamed(GroupTable(props)[g])
  {
    var table := GroupTable(props);
    EmitGroupsOk(table, Ascending(table.Keys), NoTags);
  }

  /**
   * On success, tag `n` holds, in ascending group order, every group named
   * `n` with the name removed, and exists exactly when some group names it.
   */
  lemma ReconstructTagsCollects(props: Props, n: string)
    requires ReconstructTags(props).Ok?
    ensures ReconstructTags(props).value.Valid()
    ensures ReconstructTags(props).value.Get(n) == NamedOccurrences(GroupTable(props), Ascending(GroupTable(props).Keys), n)
    ensures ReconstructTags(props).value.Has(n) <==>
      exists g :: g in GroupTable(props) && IsSet(GroupTable(props)[g], "name") && GroupTable(props)[g]["name"] == Str(n)
  {
    var table := GroupTable(props);
    var gs := Ascending(table.Keys);
    EmitGroupsValid(table, gs, NoTags);
    EmitGroupsCollects(table, gs, NoTags, n);
    EmitGroupsHas(table, gs, NoTags, n);
    NamedOccurrencesNonEmpty(table, gs, n);
  }

  /** A failure names the lowest-numbered group whose name is missing or not a string. */
  lemma ReconstructTagsErr(props: Props)
    requires ReconstructTags(props).Err?
    ensures exists g ::
      && g in GroupTable(props) && !WellNamed(GroupTable(props)[g])
      && (forall h :: h in GroupTable(props) && h < g ==> WellNamed(GroupTable(props)[h]))
      && ReconstructTags(props).error == (if IsSet(GroupTable(props)[g], "name") then TagNameNotString(g) else NoTagName(g))
  {
    EmitAscendingErr(GroupTable(props));
  }

  /** Emitting a table in ascending order fails on its lowest-numbered badly named group. */
  lemma EmitAscendingErr(table: map<nat, Props>)
    requires EmitGroups(table, Ascending(table.Keys), NoTags).Err?
    ensures exists g ::
      && g in table && !WellNamed(table[g])
      && (forall h :: h in table && h < g ==> WellNamed(table[h]))
      && EmitGroups(table, Ascending(table.Keys), NoTags).error == (if IsSet(table[g], "name") then TagNameNotString(g) else NoTagName(g))
  {
    var gs := Ascending(table.Keys);
    var e := EmitGroups(table, gs, NoTags).error;
    EmitGroupsErr(table, gs, NoTags);
    var i :| FirstBadGroup(table, gs, i, e);
    FirstBadGroupIsLowest(table, gs, i, e);
    var g := gs[i];
    assert g in table && !WellNamed(table[g]);
    assert e == (if IsSet(table[g], "name") then TagNameNotString(g) else NoTagName(g));
  }

  /** In an ascending enumeration of the groups, the first bad group is the lowest-numbered one. */
  lemma FirstBadGroupIsLowest(table: map<nat, Props>, gs: seq<nat>, i: int, e: ConfigError)
    requires forall g :: g in gs <==> g in table
    requires StrictlyIncreasing(gs)
    requires FirstBadGroup(table, gs, i, e)
    ensures forall h :: h in table && h < gs[i] ==> WellNamed(table[h])
  {
    forall h | h in table && h < gs[i] ensures WellNamed(table[h]) {
      var j :| 0 <= j < |gs| && gs[j] == h;
      assert j < i;
    }
  }

  /** Keys outside the `i<group>_<property>` pattern are ignored. */
  lemma ReconstructTagsIgnoresUnmatchedKey(props: Props, k: string, v: Scalar)
    requires ParseKey(k).None?
    ensures ReconstructTags(props[k := v]) == ReconstructTags(props)
  {
    var props' := props[k := v];
    var table := GroupTable(props);
    forall g, p ensures Denoting(props', g, p) == Denoting(props, g, p) {
      assert k !in Denoting(props', g, p);
    }
    forall g ensures g in table <==> GroupOf(props, g) != map[] {
      GroupsAreNonEmpty(props, g);
    }
    forall g, p | g in table && p in table[g] ensures table[g][p] == props'[Latest(Denoting(props', g, p))] {
      assert Latest(Denoting(props, g, p)) != k;
    }
    GroupTableIs(props', table);
  }

  const ExampleFlat: Props := map["i0_name" := Str("foo"), "i1_name" := Str("bar"), "i1_val" := Int(32)]

  const ExampleGroups: map<nat, Props> := map[0 := map["name" := Str("foo")], 1 := map["name" := Str("bar"), "val" := Int(32)]]

  lemma ExampleKeysAreGrouped()
    ensures forall g, p :: FlatKeyName(g, p) in ExampleFlat ==> g in ExampleGroups && p in ExampleGroups[g]
  {
    assert FlatKeyName(0, "name") == "i0_name";
    assert FlatKeyName(1, "name") == "i1_name";
    assert FlatKeyName(1, "val") == "i1_val";
    forall g, p | FlatKeyName(g, p) in ExampleFlat ensures g in ExampleGroups && p in ExampleGroups[g] {
      var k := FlatKeyName(g, p);
      if k == "i0_name" {
        FlatKeyNameInjective(g, p, 0, "name");
      } else if k == "i1_name" {
        FlatKeyNameInjective(g, p, 1, "name");
      } else {
        FlatKeyNameInjective(g, p, 1, "val");
      }
    }
  }

  lemma ExampleGroupsAreKeys()
    ensures forall g, p :: g in ExampleGroups && p in ExampleGroups[g] ==>
      FlatKeyName(g, p) in ExampleFlat && ExampleGroups[g][p] == ExampleFlat[FlatKeyName(g, p)]
  {
    assert FlatKeyName(0, "name") == "i0_name";
    assert FlatKeyName(1, "name") == "i1_name";
    assert FlatKeyName(1, "val") == "i1_val";
  }

  lemma ExampleGroupsMatchKeys()
    ensures forall g, p :: g in ExampleGroups && p in ExampleGroups[g] <==> FlatKeyName(g, p) in ExampleFlat
  {
    ExampleKeysAreGrouped();
    ExampleGroupsAreKeys();
  }

  lemma ExampleOneLine()
    ensures forall k | k in ExampleFlat :: '\n' !in k
  {
  }

  lemma ExampleGroupsNonEmpty()
    ensures forall g :: g in ExampleGroups ==> ExampleGroups[g] != map[]
  {
    assert "name" in ExampleGroups[0] && "name" in ExampleGroups[1];
  }

  lemma ExampleGroupTable()
    ensures GroupTable(ExampleFlat) == ExampleGroups
  {
    ExampleOneLine();
    ExampleGroupsMatchKeys();
    ExampleGroupsAreKeys();
    ExampleGroupsNonEmpty();
    GroupTableWithoutNewlines(ExampleFlat, ExampleGroups);
  }

  lemma ExampleOrder()
    ensures Ascending(ExampleGroups.Keys) == [0, 1]
  {
    assert ExampleGroups.Keys == {0, 1};
    IncreasingUnique([0, 1], Ascending({0, 1}));
  }

  lemma ExampleEmit()
    ensures EmitGroups(ExampleGroups, [0, 1], NoTags)
         == Ok(Tags(["foo", "bar"], map["foo" := [map[]], "bar" := [map["val" := Int(32)]]]))
  {
    var bar: Props := map["name" := Str("bar"), "val" := Int(32)];
    var foo: Props := map["name" := Str("foo")];
    assert bar - {"name"} == map["val" := Int(32)];
    assert foo - {"name"} == map[];
    var t1 := NoTags.Add("foo", map[]);
    var t2 := t1.Add("bar", map["val" := Int(32)]);
    assert [0, 1][1..] == [1];
    assert EmitGroups(ExampleGroups, [0, 1], NoTags) == EmitGroups(ExampleGroups, [1], t1);
    assert EmitGroups(ExampleGroups, [1], t1) == EmitGroups(ExampleGroups, [], t2);
    var none: Props := map[];
    assert NoTags.Get("foo") == [];
    assert NoTags.occurrences == map[];
    assert [] + [none] == [none];
    assert t1.occurrences == map[]["foo" := [] + [none]];
    assert t1.names == ["foo"];
    assert t1.occurrences == map["foo" := [none]];
    assert t1.Get("bar") == [];
    assert t2.names == ["foo", "bar"];
    var val: Props := map["val" := Int(32)];
    assert t1.Get("bar") + [val] == [val];
    assert t2.occurrences == t1.occurrences["bar" := [val]];
    assert t2.occurrences == map["foo" := [none], "bar" := [val]];
  }

  /** The example of the documentation: `{i0_name: foo, i1_name: bar, i1_val: 32}` is `[foo: [{}], bar: [{val: 32}]]`. */
  lemma ReconstructTagsExample()
    ensures ReconstructTags(ExampleFlat) == Ok(Tags(["foo", "bar"], map["foo" := [map[]], "bar" := [map["val" := Int(32)]]]))
  {
    ExampleGroupTable();
    ExampleOrder();
    ExampleEmit();
  }

  // ---------------------------------------------------------------------------
  // Writing tag occurrences as flat keys: the inverse of reconstructTags

  /** The properties occurrence `o` of tag `o.0` is written with: its own, and the tag name under `name`. */
  function Named(o: (string, Props)): Props {
    o.1["name" := Str(o.0)]
  }

  /** A key written for a property without a newline has none either. */
  lemma FlatKeyNameOneLine(g: nat, p: string)
    ensures '\n' !in p ==> '\n' !in FlatKeyName(g, p)
  {
    var d := NatToDigits(g);
    assert forall i :: 0 <= i < |d| ==> IsDigit(d[i]);
  }

  /** Different groups or properties are written under different keys. */
  lemma FlatKeyNamesDistinct()
    ensures forall g, p, g', p' :: FlatKeyName(g, p) == FlatKeyName(g', p') ==> g == g' && p == p'
  {
    forall g, p, g', p' | FlatKeyName(g, p) == FlatKeyName(g', p') ensures g == g' && p == p' {
      FlatKeyNameInjective(g, p, g', p');
    }
  }

  /**
   * The properties `t` written as group `g`: each property `p` under the key
   * `i<g>_<p>`, and no other key.
   */
  ghost function FlatGroup(g: nat, t: Props): (r: Props)
    ensures forall j, p :: FlatKeyName(j, p) in r <==> j == g && p in t
    ensures forall p | p in t :: r[FlatKeyName(g, p)] == t[p]
    ensures (forall p | p in t :: '\n' !in p) ==> forall k | k in r :: '\n' !in k
    decreases t.Keys
  {
    if t == map[] then map[]
    else
      var p :| p in t;
      var rest := FlatGroup(g, t - {p});
      FlatKeyNamesDistinct();
      FlatKeyNameOneLine(g, p);
      rest[FlatKeyName(g, p) := t[p]]
  }

  /** The occurrences `occs` written as consecutive groups, the first as group `g`. */
  ghost function FlattenFrom(g: nat, occs: seq<(string, Props)>): Props
    decreases |occs|
  {
    if occs == [] then map[] else FlatGroup(g, Named(occs[0])) + FlattenFrom(g + 1, occs[1..])
  }

  /** The occurrences `occs` written as groups `0`, `1`, … */
  ghost function Flatten(occs: seq<(string, Props)>): Props {
    FlattenFrom(0, occs)
  }

  /** The keys of the written occurrences are exactly `i<j>_<p>` for each property `p` of occurrence `j`. */
  lemma {:induction false} FlattenFromKey(g: nat, occs: seq<(string, Props)>, j: nat, p: string)
    ensures FlatKeyName(j, p) in FlattenFrom(g, occs) <==> g <= j < g + |occs| && p in Named(occs[j - g])
    decreases |occs|
  {
    if occs != [] {
      FlattenFromKey(g + 1, occs[1..], j, p);
      if g < j < g + |occs| {
        assert occs[1..][j - (g + 1)] == occs[j - g];
      }
    }
  }

  /** Under `i<j>_<p>` the written occurrences hold property `p` of occurrence `j`. */
  lemma {:induction false} FlattenFromValue(g: nat, occs: seq<(string, Props)>, j: nat, p: string)
    requires g <= j < g + |occs| && p in Named(occs[j - g])
    ensures FlatKeyName(j, p) in FlattenFrom(g, occs)
    ensures FlattenFrom(g, occs)[FlatKeyName(j, p)] == Named(occs[j - g])[p]
    decreases |occs|
  {
    if j > g {
      assert occs[1..][j - (g + 1)] == occs[j - g];
      FlattenFromValue(g + 1, occs[1..], j, p);
    } else {
      FlattenFromKey(g + 1, occs[1..], j, p);
    }
  }

  /** No occurrence has a property whose name holds a newline. */
  ghost predicate OneLineProperties(occs: seq<(string, Props)>) {
    forall i, p :: 0 <= i < |occs| && p in occs[i].1 ==> '\n' !in p
  }

  /** Written occurrences with one-line property names give keys without newlines. */
  lemma {:induction false} FlattenFromOneLine(g: nat, occs: seq<(string, Props)>)
    requires OneLineProperties(occs)
    ensures forall k | k in FlattenFrom(g, occs) :: '\n' !in k
    decreases |occs|
  {
    if occs != [] {
      assert OneLineProperties(occs[1..]) by {
        forall i, p | 0 <= i < |occs[1..]| && p in occs[1..][i].1 ensures '\n' !in p {
          assert occs[1..][i] == occs[i + 1];
        }
      }
      FlattenFromOneLine(g + 1, occs[1..]);
    }
  }

  /** Group `j` holding the properties occurrence `j` is written with. */
  ghost function WrittenGroups(occs: seq<(string, Props)>): map<nat, Props> {
    map j: nat | j < |occs| :: Named(occs[j])
  }

  /** The group table of the written occurrences: group `j` holds the properties of occurrence `j`. */
  lemma FlattenGroupTable(occs: seq<(string, Props)>)
    requires OneLineProperties(occs)
    ensures GroupTable(Flatten(occs)) == WrittenGroups(occs)
  {
    FlattenWritesGroups(occs);
    GroupTableWithoutNewlines(Flatten(occs), WrittenGroups(occs));
  }

  /** The written occurrences hold group `j`'s properties under the keys `i<j>_<p>`, and no other key. */
  lemma FlattenWritesGroups(occs: seq<(string, Props)>)
    requires OneLineProperties(occs)
    ensures forall k | k in Flatten(occs) :: '\n' !in k
    ensures forall g, p :: g in WrittenGroups(occs) && p in WrittenGroups(occs)[g] <==> FlatKeyName(g, p) in Flatten(occs)
    ensures forall g, p :: g in WrittenGroups(occs) && p in WrittenGroups(occs)[g] ==>
      WrittenGroups(occs)[g][p] == Flatten(occs)[FlatKeyName(g, p)]
    ensures forall g :: g in WrittenGroups(occs) ==> WrittenGroups(occs)[g] != map[]
  {
    var props := Flatten(occs);
    var groups := WrittenGroups(occs);
    FlattenFromOneLine(0, occs);
    forall g: nat, p ensures g in groups && p in groups[g] <==> FlatKeyName(g, p) in props {
      FlattenFromKey(0, occs, g, p);
    }
    forall g: nat, p | g in groups && p in groups[g] ensures groups[g][p] == props[FlatKeyName(g, p)] {
      FlattenFromValue(0, occs, g, p);
    }
    forall g | g in groups ensures groups[g] != map[] {
      assert "name" in groups[g];
    }
  }

  /** The numbers `lo`, `lo + 1`, …, `hi - 1`. */
  ghost function Range(lo: nat, hi: nat): (r: seq<nat>)
    ensures forall x :: x in r <==> lo <= x < hi
    ensures StrictlyIncreasing(r)
    decreases hi - lo
  {
    if lo >= hi then []
    else
      var rest := Range(lo + 1, hi);
      assert forall i :: 0 <= i < |rest| ==> rest[i] in rest;
      [lo] + rest
  }

  /**
   * The tags the occurrences `occs` make when added in order to `acc`, as
   * `addTag` does; a `name` property of their own is left out.
   */
  ghost function AddEach(acc: Tags, occs: seq<(string, Props)>): Tags
    decreases |occs|
  {
    if occs == [] then acc else AddEach(acc.Add(occs[0].0, occs[0].1 - {"name"}), occs[1..])
  }

  /** Emitting groups `i`, … of the written occurrences adds occurrences `i`, … in order. */
  lemma {:induction false} EmitRange(occs: seq<(string, Props)>, i: nat, acc: Tags)
    requires i <= |occs|
    ensures var table := WrittenGroups(occs);
      EmitGroups(table, Range(i, |occs|), acc) == Ok(AddEach(acc, occs[i..]))
    decreases |occs| - i
  {
    if i < |occs| {
      var table := WrittenGroups(occs);
      var gs := Range(i, |occs|);
      var acc' := acc.Add(occs[i].0, occs[i].1 - {"name"});
      assert gs[0] == i && gs[1..] == Range(i + 1, |occs|);
      assert table[i] - {"name"} == occs[i].1 - {"name"};
      assert EmitGroups(table, gs, acc) == EmitGroups(table, gs[1..], acc');
      assert occs[i..][1..] == occs[i + 1..];
      assert AddEach(acc, occs[i..]) == AddEach(acc', occs[i + 1..]);
      EmitRange(occs, i + 1, acc');
    }
  }

  /**
   * The round trip: occurrences written as flat keys are read back as the
   * tags adding them in order makes, whenever no property name holds a
   * newline.
   */
  lemma FlattenRoundTrip(occs: seq<(string, Props)>)
    requires OneLineProperties(occs)
    ensures ReconstructTags(Flatten(occs)) == Ok(AddEach(NoTags, occs))
  {
    var table := WrittenGroups(occs);
    FlattenGroupTable(occs);
    IncreasingUnique(Ascending(table.Keys), Range(0, |occs|));
    EmitRange(occs, 0, NoTags);
    assert occs[0..] == occs;
  }

  // ---------------------------------------------------------------------------
  // buildMapOfTagsAndServiceIds

  /** The ids, in declaration order, of the services among `ids` that declare tag `t`. */
  function ServicesDeclaring(ids: seq<string>, defs: map<string, Definition>, t: string): (r: seq<string>)
    ensures forall s :: s in r <==> s in ids && s in defs && defs[s].tags.Has(t)
  {
    if ids == [] then []
    else (if ids[0] in defs && defs[ids[0]].tags.Has(t) then [ids[0]] else []) + ServicesDeclaring(ids[1..], defs, t)
  }

  lemma {:induction false} ServicesDeclaringDistinct(ids: seq<string>, defs: map<string, Definition>, t: string)
    requires Distinct(ids)
    ensures Distinct(ServicesDeclaring(ids, defs, t))
  {
    if ids != [] {
      assert ids[0] !in ids[1..] by {
        forall i | 0 <= i < |ids[1..]| ensures ids[1..][i] != ids[0] {
          assert ids[1..][i] == ids[i + 1];
        }
      }
      ServicesDeclaringDistinct(ids[1..], defs, t);
    }
  }

  lemma {:induction false} ServicesDeclaringAppend(ids: seq<string>, id: string, defs: map<string, Definition>, t: string)
    ensures ServicesDeclaring(ids + [id], defs, t)
         == ServicesDeclaring(ids, defs, t) + (if id in defs && defs[id].tags.Has(t) then [id] else [])
  {
    if ids != [] {
      assert (ids + [id])[1..] == ids[1..] + [id];
      ServicesDeclaringAppend(ids[1..], id, defs, t);
    }
  }

  /** The tag names some definition declares. */
  ghost function TagNamesInUse(gs: GraphState): set<string> {
    set id, t | id in gs.ids && id in gs.defs && t in gs.defs[id].tags.occurrences :: t
  }

  /** The tag index: every tag name in use, with the services that declare it in declaration order. */
  ghost function TagIndex(gs: GraphState): map<string, seq<string>> {
    map t | t in TagNamesInUse(gs) :: ServicesDeclaring(gs.ids, gs.defs, t)
  }

  function Lookup(index: map<string, seq<string>>, t: string): seq<string> {
    if t in index then index[t] else []
  }

  /** `index` lists for every tag exactly the services among `ids` that declare it, and no empty entry. */
  ghost predicate IndexesServices(index: map<string, seq<string>>, ids: seq<string>, defs: map<string, Definition>) {
    forall t :: Lookup(index, t) == ServicesDeclaring(ids, defs, t) && (t in index <==> Lookup(index, t) != [])
  }

  lemma TagIndexIs(gs: GraphState, index: map<string, seq<string>>)
    requires IndexesServices(index, gs.ids, gs.defs)
    ensures index == TagIndex(gs)
  {
    forall t ensures t in index <==> t in TagNamesInUse(gs) {
      var r := ServicesDeclaring(gs.ids, gs.defs, t);
      assert Lookup(index, t) == r;
      if t in index {
        var s := r[0];
        assert s in r;
      }
    }
    forall t | t in index ensures index[t] == TagIndex(gs)[t] {
      assert Lookup(index, t) == index[t];
    }
  }

  /** Inner loop: adds `id` to the entry of every name in `names`, creating missing entries. */
  method AddToEntries(index: map<string, seq<string>>, id: string, names: seq<string>) returns (index': map<string, seq<string>>)
    requires Distinct(names)
    ensures forall t :: Lookup(index', t) == Lookup(index, t) + (if t in names then [id] else [])
    ensures forall t :: t in index' <==> t in index || t in names
  {
    index' := index;
    var j := 0;
    while j < |names|
      invariant 0 <= j <= |names|
      invariant forall t :: Lookup(index', t) == Lookup(index, t) + (if t in names[..j] then [id] else [])
      invariant forall t :: t in index' <==> t in index || t in names[..j]
    {
      var t := names[j];
      assert t !in names[..j];
      assert names[..j + 1] == names[..j] + [t];
      ghost var before := index';
      index' := index'[t := Lookup(index', t) + [id]];
      forall u ensures Lookup(index', u) == Lookup(index, u) + (if u in names[..j + 1] then [id] else []) {
        if u != t {
          assert Lookup(index', u) == Lookup(before, u);
        }
      }
      j := j + 1;
    }
    assert names[..j] == names;
  }

  lemma IndexesOneMore(index: map<string, seq<string>>, index': map<string, seq<string>>, ids: seq<string>, id: string, defs: map<string, Definition>)
    requires IndexesServices(index, ids, defs)
    requires id in defs && defs[id].tags.Valid()
    requires forall t :: Lookup(index', t) == Lookup(index, t) + (if t in defs[id].tags.names then [id] else [])
    requires forall t :: t in index' <==> t in index || t in defs[id].tags.names
    ensures IndexesServices(index', ids + [id], defs)
  {
    forall t ensures Lookup(index', t) == ServicesDeclaring(ids + [id], defs, t)
                  && (t in index' <==> Lookup(index', t) != [])
    {
      ServicesDeclaringAppend(ids, id, defs, t);
    }
  }

  /**
   * `buildMapOfTagsAndServiceIds`: walks the definitions in declaration order
   * and adds each to the set of every tag name it declares.
   */
  method BuildMapOfTagsAndServiceIds(g: Graph) returns (index: map<string, seq<string>>)
    requires g.Valid()
    ensures index == TagIndex(g.State())
  {
    index := map[];
    var i := 0;
    while i < |g.ids|
      invariant 0 <= i <= |g.ids|
      invariant IndexesServices(index, g.ids[..i], g.defs)
    {
      var id := g.ids[i];
      var index' := AddToEntries(index, id, g.defs[id].tags.names);
      IndexesOneMore(index, index', g.ids[..i], id, g.defs);
      assert g.ids[..i + 1] == g.ids[..i] + [id];
      index := index';
      i := i + 1;
    }
    assert g.ids[..i] == g.ids;
    TagIndexIs(g.State(), index);
  }

  /**
   * A service is listed under a tag exactly when it is defined and declares
   * that tag; the keys are exactly the tag names in use; each service is
   * listed once, in declaration order.
   */
  lemma TagIndexContents(gs: GraphState)
    requires gs.Valid()
    ensures forall t, s :: t in TagIndex(gs) && s in TagIndex(gs)[t] <==> s in gs.defs && gs.defs[s].tags.Has(t)
    ensures forall t :: t in TagIndex(gs) <==> exists s :: s in gs.defs && gs.defs[s].tags.Has(t)
    ensures forall t | t in TagIndex(gs) :: TagIndex(gs)[t] == ServicesDeclaring(gs.ids, gs.defs, t) && Distinct(TagIndex(gs)[t])
  {
    forall t | t in TagIndex(gs) ensures Distinct(TagIndex(gs)[t]) {
      ServicesDeclaringDistinct(gs.ids, gs.defs, t);
    }
  }

  // ---------------------------------------------------------------------------
  // processedItemsSetFromContainer

  /** The store key `<owner>.<tag>.<suffix>`: the owning pass class, its tag and the kind of items. */
  function ProcessedKey(owner: string, tag: string, suffix: string): string {
    owner + "." + tag + "." + suffix
  }

  /** Keys that differ only in the suffix differ. */
  lemma ProcessedKeySuffixes(owner: string, tag: string, suffix: string, suffix': string)
    requires suffix != suffix'
    ensures ProcessedKey(owner, tag, suffix) != ProcessedKey(owner, tag, suffix')
  {
    var prefix := owner + "." + tag + ".";
    assert ProcessedKey(owner, tag, suffix) == prefix + suffix;
    assert ProcessedKey(owner, tag, suffix') == prefix + suffix';
    assert (prefix + suffix)[|prefix|..] == suffix;
    assert (prefix + suffix')[|prefix|..] == suffix';
  }

  /**
   * `processedItemsSetFromContainer`: the processed set under
   * `<owner>.<tag>.<suffix>`, stored empty on first use.
   */
  method ProcessedItemsSetFromContainer(g: Graph, owner: string, tag: string, suffix: string) returns (key: string, items: set<Processed>)
    modifies g
    ensures key == ProcessedKey(owner, tag, suffix)
    ensures g.State() == old(g.State()).EnsureSet(key)
    ensures items == g.store.sets[key]
  {
    key := ProcessedKey(owner, tag, suffix);
    if key !in g.store.sets {
      g.SetStore(g.store.(sets := g.store.sets[key := {}]));
    }
    items := g.store.sets[key];
  }

  /** A second get-or-create changes nothing and sees what the first one left. */
  lemma {:induction false} EnsureSetIdempotent(gs: GraphState, key: string)
    ensures gs.EnsureSet(key).EnsureSet(key) == gs.EnsureSet(key)
    ensures key in gs.store.sets ==> gs.EnsureSet(key).store.sets[key] == gs.store.sets[key]
  {
  }
}
