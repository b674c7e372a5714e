/**
 * The decoded shape of an environment file.  A document is a mapping from
 * top-level keys to values; scalars are kept as text, lists hold plain
 * specifications or one-key sections such as `{pip: [...]}`.
 */
module Values {
  import opened Dict

  /** An entry of a dependency list: a plain spec string, or a mapping from
      ecosystem names to spec lists. */
  datatype Item = Plain(spec: string) | Section(entries: seq<(string, seq<string>)>)

  datatype Value =
    | Null
    | Text(text: string)
    | Items(items: seq<Item>)
    | Table(pairs: seq<(string, string)>)

  /** A decoded top-level mapping. */
  type Document = seq<(string, Value)>

  /** Python truthiness: `None`, the empty string, list and mapping are false. */
  predicate Truthy(v: Value) {
    match v
    case Null => false
    case Text(s) => s != ""
    case Items(xs) => xs != []
    case Table(ps) => ps != []
  }

  /** What a `for` loop over the value visits: the characters of a string,
      the entries of a list, the keys of a mapping.  Iterating `None` raises
      `TypeError`, so callers rule it out first. */
  function Elements(v: Value): (es: seq<Item>)
    requires !v.Null?
    ensures v.Items? ==> es == v.items
    ensures |es| == 0 <==> !Truthy(v)
    ensures !v.Items? ==> forall i :: 0 <= i < |es| ==> es[i].Plain?
  {
    match v
    case Text(s) => seq(|s|, i requires 0 <= i < |s| => Plain([s[i]]))
    case Items(xs) => xs
    case Table(ps) => seq(|ps|, i requires 0 <= i < |ps| => Plain(ps[i].0))
  }

  /** A list of strings as a document value. */
  function TextList(ss: seq<string>): (v: Value)
    ensures v.Items? && |v.items| == |ss|
    ensures forall i :: 0 <= i < |ss| ==> v.items[i] == Plain(ss[i])
  {
    Items(seq(|ss|, i requires 0 <= i < |ss| => Plain(ss[i])))
  }
}
