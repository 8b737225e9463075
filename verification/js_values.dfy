/** JavaScript values as the dealer records carry them, and the three ways the
    component turns them into text or decisions: truthiness, template-literal
    conversion (`${v}`) and JSX child rendering (`{v}`). */
module JsValues {

  datatype Option<+T> = None | Some(value: T)

  /** A property value of a dealer record. Numbers are not modelled. */
  datatype JsValue = Undefined | Null | Str(s: string) | Bool(b: bool)

  /** JavaScript truthiness: "", false, null and undefined are falsy. */
  function Truthy(v: JsValue): (b: bool)
    ensures !b <==> v in [Undefined, Null, Str(""), Bool(false)]
  {
    match v
    case Str(s) => s != ""
    case Bool(b) => b
    case _ => false
  }

  /** `String(v)`, the conversion a template literal applies to `${v}`. */
  function TemplateText(v: JsValue): (r: string)
    ensures v.Str? ==> r == v.s
    ensures !v.Str? ==> r != ""
    ensures Truthy(v) ==> r != ""
  {
    match v
    case Undefined => "undefined"
    case Null => "null"
    case Str(s) => s
    case Bool(b) => if b then "true" else "false"
  }

  /** The text React renders for a child `{v}`: a string as it is; booleans,
      null and undefined render nothing. */
  function JsxText(v: JsValue): (r: string)
    ensures r != "" ==> Truthy(v) && v.Str?
    ensures !v.Bool? ==> (r != "" <==> Truthy(v))
  {
    match v
    case Str(s) => s
    case _ => ""
  }

  /** `v || ""` followed by the string conversion `Array.prototype.join`
      applies: a falsy value contributes the empty string. */
  function OrEmptyText(v: JsValue): (r: string)
    ensures r == "" <==> !Truthy(v)
    ensures Truthy(v) ==> r == TemplateText(v)
  {
    if Truthy(v) then TemplateText(v) else ""
  }

  /** How often `c` occurs in `s`. */
  function Occurrences(s: string, c: char): (n: nat)
    ensures n <= |s|
    ensures n == 0 <==> c !in s
  {
    if s == [] then 0
    else (if s[0] == c then 1 else 0) + Occurrences(s[1..], c)
  }

  lemma {:induction false} OccurrencesAppend(a: string, b: string, c: char)
    ensures Occurrences(a + b, c) == Occurrences(a, c) + Occurrences(b, c)
  {
    if a == [] {
      assert a + b == b;
    } else {
      assert (a + b)[0] == a[0];
      assert (a + b)[1..] == a[1..] + b;
      OccurrencesAppend(a[1..], b, c);
    }
  }
}
