/**
 * The global validation pipe: a request body (or query) is a map from
 * property names to JSON scalars; properties the DTO does not declare are
 * rejected, and each declared property is checked by its decorators before
 * any handler runs.
 */
module ValidationPipe {

  /** A JSON scalar as the pipe receives it. */
  datatype Value = Num(n: int) | Str(s: string) | Bool(b: bool)

  type Payload = map<string, Value>

  /** The outcome of checking one declared property. */
  datatype Field<T> = Missing | Given(value: T) | Rejected

  /** forbidNonWhitelisted: every property of the payload is declared on the DTO. */
  predicate Whitelisted(p: Payload, declared: set<string>) {
    p.Keys <= declared
  }

  /** @IsString on property `key`. */
  function StringField(p: Payload, key: string): (f: Field<string>)
    ensures f.Missing? <==> key !in p
    ensures f.Given? <==> key in p && p[key].Str?
    ensures f.Given? ==> p[key] == Str(f.value)
  {
    if key !in p then Missing
    else match p[key]
      case Str(s) => Given(s)
      case _ => Rejected
  }

  /** @IsNumber on property `key`. */
  function NumberField(p: Payload, key: string): (f: Field<int>)
    ensures f.Missing? <==> key !in p
    ensures f.Given? <==> key in p && p[key].Num?
    ensures f.Given? ==> p[key] == Num(f.value)
  {
    if key !in p then Missing
    else match p[key]
      case Num(n) => Given(n)
      case _ => Rejected
  }
}
