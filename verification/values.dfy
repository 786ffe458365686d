/**
 * Scalar values as they appear in service tags, argument slots and the
 * values the compiler passes write into them.
 */
module Values {

  datatype Option<+T> = None | Some(value: T)

  /** A tag property value. Tag properties are scalars: PHP's `gettype` tells them apart. */
  datatype Scalar = Null | Bool(b: bool) | Int(i: int) | Str(s: string)

  /** The names `gettype` reports for the scalar kinds. */
  datatype TypeName = TNull | TBoolean | TInteger | TString

  function TypeOf(v: Scalar): (t: TypeName)
    ensures t == TNull <==> v.Null?
    ensures t == TBoolean <==> v.Bool?
    ensures t == TInteger <==> v.Int?
    ensures t == TString <==> v.Str?
  {
    match v
    case Null => TNull
    case Bool(_) => TBoolean
    case Int(_) => TInteger
    case Str(_) => TString
  }

  /** The properties of one tag occurrence. */
  type Props = map<string, Scalar>

  /** PHP's `isset($props[$key])`: present and not null. */
  predicate IsSet(props: Props, key: string) {
    key in props && props[key] != Null
  }

  /** PHP's `$props[$key] ?? $default`. */
  function GetOr(props: Props, key: string, default: Scalar): (v: Scalar)
    ensures IsSet(props, key) ==> v == props[key]
    ensures !IsSet(props, key) ==> v == default
  {
    if IsSet(props, key) then props[key] else default
  }

  /** An argument slot: a position or a named (`$name`) slot. */
  datatype ArgKey = Index(n: int) | Named(name: string)

  /** The slot an `int|string` tag property designates. */
  function ToArgKey(v: Scalar): (k: ArgKey)
    requires v.Int? || v.Str?
    ensures v.Int? ==> k == Index(v.i)
    ensures v.Str? ==> k == Named(v.s)
  {
    if v.Int? then Index(v.i) else Named(v.s)
  }

  /** What an argument slot holds: a literal, a reference to a service, or a list of references. */
  datatype ArgValue = Literal(v: Scalar) | Ref(id: string) | RefList(ids: seq<string>)
}
