/** JSON values, as requests, configuration layers and stored records carry them. */
module Json {
  import opened Prelude

  type Odd = m: int | m % 2 == 1 witness 1
  type Positive = n: nat | n >= 1 witness 1

  /** A finite double is a whole number or m / 2^halvings for one odd m; the doubles are among
      these numbers. A number literal may overflow to an infinity. */
  datatype Number = Whole(n: int) | Fraction(m: Odd, halvings: Positive) | Infinite(negative: bool)

  datatype Json =
    | Null
    | Bool(b: bool)
    | Num(n: Number)
    | Str(s: string)
    | Arr(items: seq<Json>)
    | Obj(fields: map<string, Json>)

  predicate Truthy(v: Option<Json>) {
    match v
    case None => false
    case Some(Null) => false
    case Some(Bool(b)) => b
    case Some(Num(n)) => n != Whole(0)
    case Some(Str(s)) => s != ""
    case Some(_) => true
  }

  /** Nothing, null, false, zero and the empty string are falsy, and no other value is. */
  lemma FalsyExactly(v: Option<Json>)
    ensures !Truthy(v) <==> v in {None, Some(Null), Some(Bool(false)), Some(Num(Whole(0))), Some(Str(""))}
  {
  }

  /** A property that an object lacks, and any property of another value, is undefined. */
  function Get(v: Json, key: string): Option<Json> {
    if v.Obj? && key in v.fields then Some(v.fields[key]) else None
  }

  /** A value that JSON text can express. */
  predicate Printable(v: Json) {
    match v
    case Num(n) => !n.Infinite?
    case Arr(items) => forall i | 0 <= i < |items| :: Printable(items[i])
    case Obj(fields) => forall k | k in fields :: Printable(fields[k])
    case _ => true
  }

  type Text = seq<int>

  /** JSON.stringify and JSON.parse with their byte encoding. */
  datatype Codec = Codec(stringify: Json -> Text, parse: Text -> Option<Json>)

  /** Parsing what was printed gives it back, and no value prints as the empty text. */
  ghost predicate Lawful(c: Codec) {
    forall v :: Printable(v) ==> c.stringify(v) != [] && c.parse(c.stringify(v)) == Some(v)
  }
}
