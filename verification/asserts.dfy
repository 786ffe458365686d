/**
 * The shared validation predicates: each either succeeds or aborts with a
 * configuration error naming the offending service; none changes anything.
 */
module Asserts {
  import opened Values
  import opened Errors
  import opened Container

  /** Exactly one occurrence of the tag is allowed; none fails as well. */
  function AssertOnlyOneTagPerService(tags: seq<Props>, tag: string, id: string): (r: Status)
    ensures r.Pass? <==> |tags| == 1
    ensures r.Fail? ==> r.error == MultipleTags(id, tag)
  {
    if |tags| == 1 then Pass else Fail(MultipleTags(id, tag))
  }

  function AssertDefinitionIsAbstract(d: Definition, id: string): (r: Status)
    ensures r.Pass? <==> d.isAbstract
    ensures r.Fail? ==> r.error == ExpectedAbstract(id)
  {
    if d.isAbstract then Pass else Fail(ExpectedAbstract(id))
  }

  function AssertDefinitionIsNotAbstract(d: Definition, id: string): (r: Status)
    ensures r.Pass? <==> !d.isAbstract
    ensures r.Fail? ==> r.error == ExpectedNonAbstract(id)
  {
    if d.isAbstract then Fail(ExpectedNonAbstract(id)) else Pass
  }

  /** The value's runtime type must be one of the allowed ones. */
  function AssertValueIsOfType(v: Scalar, types: set<TypeName>, source: string, id: string): (r: Status)
    ensures r.Pass? <==> TypeOf(v) in types
    ensures r.Fail? ==> r.error == UnexpectedType(source, types, id)
  {
    if TypeOf(v) in types then Pass else Fail(UnexpectedType(source, types, id))
  }

  /** The two abstractness assertions are complementary: exactly one of them passes. */
  lemma AbstractAssertionsComplementary(d: Definition, id: string)
    ensures AssertDefinitionIsAbstract(d, id).Pass? != AssertDefinitionIsNotAbstract(d, id).Pass?
  {
  }

  /** A property read with `?? null` that is absent only passes when NULL is allowed. */
  lemma MissingPropertyNeedsNull(props: Props, key: string, types: set<TypeName>, id: string)
    requires key !in props
    ensures AssertValueIsOfType(GetOr(props, key, Null), types, key, id).Pass? <==> TNull in types
  {
  }
}
