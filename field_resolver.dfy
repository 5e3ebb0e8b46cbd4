/**
 * `fieldResolver(defaultResolver, p)`: a leaf resolver that prefers a value
 * found on the parent and falls back to the default resolver only when that
 * value is `undefined`.
 */
module FieldResolvers {
  import opened Wrappers
  import opened Objects

  /** The parent value (`rootValue`) handed to a field resolver: nullish, or a plain object. */
  datatype Root = Nullish | Parent(fields: Entries)

  /** The part of the resolve info that the resolver reads. */
  datatype ResolveInfo = ResolveInfo(fieldName: string)

  /** The optional `p` argument; a missing or non-function `getDataFromParent` is `None`. */
  datatype FieldResolverParams = FieldResolverParams(getDataFromParent: Option<Root -> Value>)

  /** `rootValue?.[fieldName]`: `undefined` on a nullish parent, else the parent's property. */
  function ReadField(rootValue: Root, fieldName: string): (v: Value)
    ensures rootValue.Nullish? ==> v == Undefined
    ensures rootValue.Parent? && fieldName !in KeySet(rootValue.fields) ==> v == Undefined
    ensures forall i :: (rootValue.Parent? && 0 <= i < |rootValue.fields| && rootValue.fields[i].0 == fieldName) ==>
                          v == rootValue.fields[i].1
  {
    match rootValue
    case Nullish => Undefined
    case Parent(fields) =>
      forall i | 0 <= i < |fields| ensures Get(fields, fields[i].0) == fields[i].1 {
        GetAt(fields, i);
      }
      Get(fields, fieldName)
  }

  /** The parent-derived `fieldValue`: from `getDataFromParent(rootValue)` when supplied, else read off the parent. */
  function ParentValue(p: Option<FieldResolverParams>, rootValue: Root, info: ResolveInfo): Value
  {
    if p.Some? && p.value.getDataFromParent.Some? then p.value.getDataFromParent.value(rootValue)
    else ReadField(rootValue, info.fieldName)
  }

  /**
   * The resolver built by `fieldResolver(defaultResolver, p)`, applied to
   * `(rootValue, args, context, info)`.
   */
  function FieldResolver<A, C>(defaultResolver: (Root, A, C, ResolveInfo) -> Value, p: Option<FieldResolverParams>,
                               rootValue: Root, args: A, context: C, info: ResolveInfo): (r: Value)
    ensures ParentValue(p, rootValue, info) != Undefined ==> r == ParentValue(p, rootValue, info)
    ensures ParentValue(p, rootValue, info) == Undefined ==> r == defaultResolver(rootValue, args, context, info)
    ensures r == Undefined ==> defaultResolver(rootValue, args, context, info) == Undefined
    ensures r != defaultResolver(rootValue, args, context, info) ==> r == ParentValue(p, rootValue, info)
  {
    var fieldValue := ParentValue(p, rootValue, info);
    if fieldValue != Undefined then fieldValue
    else defaultResolver(rootValue, args, context, info)
  }

  /**
   * A parent-derived value other than `undefined` is the answer, whatever the
   * default resolver would have returned: the default resolver is not consulted.
   */
  lemma ParentValueWins<A, C>(d1: (Root, A, C, ResolveInfo) -> Value, d2: (Root, A, C, ResolveInfo) -> Value,
                              p: Option<FieldResolverParams>, rootValue: Root, args: A, context: C, info: ResolveInfo)
    requires ParentValue(p, rootValue, info) != Undefined
    ensures FieldResolver(d1, p, rootValue, args, context, info) == ParentValue(p, rootValue, info)
    ensures FieldResolver(d1, p, rootValue, args, context, info) == FieldResolver(d2, p, rootValue, args, context, info)
  {
  }

  /** An explicit `null` on the parent is returned as `null`, not replaced by the default. */
  lemma NullFieldIsReturned<A, C>(d: (Root, A, C, ResolveInfo) -> Value, rootValue: Root, args: A, context: C, info: ResolveInfo)
    requires rootValue.Parent? && Get(rootValue.fields, info.fieldName) == Null
    ensures FieldResolver(d, None, rootValue, args, context, info) == Null
  {
  }

  /** An `undefined` parent-derived value delegates to the default resolver with the same four arguments. */
  lemma UndefinedDelegatesToDefault<A, C>(d: (Root, A, C, ResolveInfo) -> Value, p: Option<FieldResolverParams>,
                                          rootValue: Root, args: A, context: C, info: ResolveInfo)
    requires ParentValue(p, rootValue, info) == Undefined
    ensures FieldResolver(d, p, rootValue, args, context, info) == d(rootValue, args, context, info)
  {
  }

  /**
   * A supplied `getDataFromParent` is called with `rootValue` alone: the field
   * name being resolved does not influence the parent-derived value.
   */
  lemma GetterSeesOnlyRoot(p: Option<FieldResolverParams>, rootValue: Root, info1: ResolveInfo, info2: ResolveInfo)
    requires p.Some? && p.value.getDataFromParent.Some?
    ensures ParentValue(p, rootValue, info1) == p.value.getDataFromParent.value(rootValue)
    ensures ParentValue(p, rootValue, info1) == ParentValue(p, rootValue, info2)
  {
  }

  /** Without `getDataFromParent`, the value is the parent's own property named by `info`, or `undefined`. */
  lemma FieldReadOffParent(p: Option<FieldResolverParams>, rootValue: Root, info: ResolveInfo)
    requires p.None? || p.value.getDataFromParent.None?
    ensures rootValue.Parent? ==> ParentValue(p, rootValue, info) == Get(rootValue.fields, info.fieldName)
    ensures rootValue.Nullish? ==> ParentValue(p, rootValue, info) == Undefined
  {
  }
}
