/** A decoded JSON document, read the way serde_json's `Value` is read by the
    provider clients: indexing never fails (a missing member reads as `null`),
    and the typed accessors `as_f64`, `as_i64` and `as_array` return an option. */
module Json {
  import opened Wrappers

  datatype Json =
    | JNull
    | JBool(b: bool)
    | JInt(i: int)
    | JFloat(f: real)
    | JStr(s: string)
    | JArr(items: seq<Json>)
    | JObj(fields: map<string, Json>)

  /** A step of a path: an object member name or an array position. */
  datatype Key = Name(name: string) | Pos(index: nat)

  const I64_MIN: int := -0x8000_0000_0000_0000
  const I64_MAX: int := 0x7FFF_FFFF_FFFF_FFFF

  /** `value[key]` / `value[index]`: the member, or `null` when the value is
      not an object (not an array) or has no such member (index out of range). */
  function Index(j: Json, k: Key): Json {
    match k
    case Name(n) => if j.JObj? && n in j.fields then j.fields[n] else JNull
    case Pos(i) => if j.JArr? && i < |j.items| then j.items[i] else JNull
  }

  /** `as_f64`: any number, integers included. */
  function AsF64(j: Json): Option<real> {
    match j
    case JInt(i) => Some(i as real)
    case JFloat(f) => Some(f)
    case _ => None
  }

  /** `as_i64`: an integer that fits in 64 signed bits; never a float. */
  function AsI64(j: Json): Option<int> {
    if j.JInt? && I64_MIN <= j.i <= I64_MAX then Some(j.i) else None
  }

  /** `as_array`. */
  function AsArray(j: Json): Option<seq<Json>> {
    if j.JArr? then Some(j.items) else None
  }

  /** Repeated indexing, `value[k0][k1]...`. */
  function Walk(j: Json, path: seq<Key>): Json
    decreases |path|
  {
    if path == [] then j else Walk(Index(j, path[0]), path[1..])
  }

  // ---------------------------------------------------------------------
  // Reference reading of a document, in which absence is explicit. The
  // parsers' contracts are stated in these terms.

  /** The member a key selects, if the document has one. */
  function Child(j: Json, k: Key): Option<Json> {
    match (j, k)
    case (JObj(fields), Name(n)) => if n in fields then Some(fields[n]) else None
    case (JArr(items), Pos(i)) => if i < |items| then Some(items[i]) else None
    case _ => None
  }

  /** The value found by following `path`, or None when some step is missing. */
  function Lookup(j: Json, path: seq<Key>): Option<Json>
    decreases |path|
  {
    if path == [] then Some(j)
    else match Child(j, path[0])
      case None => None
      case Some(c) => Lookup(c, path[1..])
  }

  predicate IsNumber(o: Option<Json>) {
    o.Some? && (o.value.JInt? || o.value.JFloat?)
  }

  function NumberOf(o: Option<Json>): real
    requires IsNumber(o)
  {
    if o.value.JInt? then o.value.i as real else o.value.f
  }

  predicate IsI64(o: Option<Json>) {
    o.Some? && o.value.JInt? && I64_MIN <= o.value.i <= I64_MAX
  }

  predicate IsArray(o: Option<Json>) {
    o.Some? && o.value.JArr?
  }

  // ---------------------------------------------------------------------

  lemma {:induction false} WalkNull(path: seq<Key>)
    ensures Walk(JNull, path) == JNull
    decreases |path|
  {
    if path != [] {
      WalkNull(path[1..]);
    }
  }

  /** Indexing along a path and then along another is indexing along both. */
  lemma {:induction false} WalkAppend(j: Json, p: seq<Key>, q: seq<Key>)
    ensures Walk(j, p + q) == Walk(Walk(j, p), q)
    decreases |p|
  {
    if p != [] {
      assert (p + q)[0] == p[0] && (p + q)[1..] == p[1..] + q;
      WalkAppend(Index(j, p[0]), p[1..], q);
    } else {
      assert p + q == q;
    }
  }

  /** serde_json's null-defaulting indexing reads exactly what the path holds,
      and `null` when any step of it is missing. */
  lemma {:induction false} WalkIsLookupOrNull(j: Json, path: seq<Key>)
    ensures Walk(j, path) == Lookup(j, path).GetOr(JNull)
    decreases |path|
  {
    if path != [] {
      match Child(j, path[0])
      case None =>
        assert Index(j, path[0]) == JNull;
        WalkNull(path[1..]);
      case Some(c) =>
        assert Index(j, path[0]) == c;
        WalkIsLookupOrNull(c, path[1..]);
    }
  }

  /** Reading a number through serde_json succeeds exactly when the path
      leads to a number, and yields that number. */
  lemma NumberAt(j: Json, path: seq<Key>)
    ensures AsF64(Walk(j, path)).Some? <==> IsNumber(Lookup(j, path))
    ensures IsNumber(Lookup(j, path)) ==> AsF64(Walk(j, path)).value == NumberOf(Lookup(j, path))
  {
    WalkIsLookupOrNull(j, path);
  }

  /** Reading an i64 through serde_json succeeds exactly when the path leads
      to an integer in the signed 64-bit range, and yields that integer. */
  lemma IntegerAt(j: Json, path: seq<Key>)
    ensures AsI64(Walk(j, path)).Some? <==> IsI64(Lookup(j, path))
    ensures IsI64(Lookup(j, path)) ==> AsI64(Walk(j, path)).value == Lookup(j, path).value.i
  {
    WalkIsLookupOrNull(j, path);
  }

  /** Reading an array through serde_json succeeds exactly when the path
      leads to an array, and yields its elements. */
  lemma ArrayAt(j: Json, path: seq<Key>)
    ensures AsArray(Walk(j, path)).Some? <==> IsArray(Lookup(j, path))
    ensures IsArray(Lookup(j, path)) ==> AsArray(Walk(j, path)).value == Lookup(j, path).value.items
  {
    WalkIsLookupOrNull(j, path);
  }
}
