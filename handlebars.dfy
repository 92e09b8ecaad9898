/** What the static builder and the development engine share on the Handlebars side: the
    JavaScript values held by the JSON data files, the `{ ...global, ...page }` merge, the
    three helpers both register, and the partial and helper registry. Template compilation
    and execution belong to the library and are not modelled. */
module Handlebars {
  import opened Strings

  /** A value read from a JSON data file, as far as the templates see it. Arrays and
      objects (`JComposite`) are always truthy and interpolate as their `String()` text;
      numbers are integers. A key that is absent reads as `JUndefined`. */
  datatype JsValue =
    | JUndefined
    | JNull
    | JBool(b: bool)
    | JNum(n: int)
    | JStr(s: string)
    | JComposite(text: string)

  /** A parsed JSON object. */
  type Data = map<string, JsValue>

  /** `data[key]`. */
  function Get(data: Data, key: string): JsValue {
    if key in data then data[key] else JUndefined
  }

  /** JavaScript truthiness. */
  predicate Truthy(v: JsValue) {
    match v
    case JUndefined => false
    case JNull => false
    case JBool(b) => b
    case JNum(n) => n != 0
    case JStr(s) => s != ""
    case JComposite(_) => true
  }

  /** `a || b`. */
  function Or(a: JsValue, b: JsValue): (r: JsValue)
    ensures Truthy(a) ==> r == a
    ensures !Truthy(a) ==> r == b
  {
    if Truthy(a) then a else b
  }

  /** The number a run of decimal digits denotes. */
  function DigitsValue(t: string): nat
    requires forall i :: 0 <= i < |t| ==> '0' <= t[i] <= '9'
  {
    if t == [] then 0
    else DigitsValue(t[..|t| - 1]) * 10 + (t[|t| - 1] - '0') as nat
  }

  /** The decimal numeral of `n`: digits only, no leading zero, and denoting `n`. */
  function NatText(n: nat): (t: string)
    ensures |t| >= 1
    ensures forall c :: c in t ==> '0' <= c <= '9'
    ensures forall i :: 0 <= i < |t| ==> '0' <= t[i] <= '9'
    ensures t[0] == '0' ==> n == 0
    ensures DigitsValue(t) == n
  {
    var digit := ['0' + (n % 10) as char];
    if n < 10 then digit
    else
      var front := NatText(n / 10);
      assert (front + digit)[..|front|] == front;
      front + digit
  }

  /** `String(v)`, the text a template literal interpolates. */
  function ToText(v: JsValue): string {
    match v
    case JUndefined => "undefined"
    case JNull => "null"
    case JBool(b) => if b then "true" else "false"
    case JNum(n) => if n < 0 then "-" + NatText(-n) else NatText(n)
    case JStr(s) => s
    case JComposite(text) => text
  }

  /** `{ ...global, ...page }`: every key of either, the page's value winning. */
  function Merge(global: Data, page: Data): (merged: Data)
    ensures merged.Keys == global.Keys + page.Keys
    ensures forall k :: k in page ==> merged[k] == page[k]
    ensures forall k :: k in global && k !in page ==> merged[k] == global[k]
  {
    global + page
  }

  /** A key the page does not set keeps its global value, and merging twice with the same
      page changes nothing more. */
  lemma MergeLookup(global: Data, page: Data, key: string)
    ensures Get(Merge(global, page), key) == if key in page then page[key] else Get(global, key)
    ensures Merge(Merge(global, page), page) == Merge(global, page)
  {
    var once := Merge(global, page);
    assert Merge(once, page).Keys == once.Keys;
  }

  // ---------------------------------------------------------------------------------
  // Helpers

  const HelperNames: set<string> := {"add", "eq", "contains"}

  /** The number `+` converts an operand to; `None` for `undefined`, which gives NaN. */
  function ToNumber(v: JsValue): Option<int>
    requires !v.JStr? && !v.JComposite?
  {
    match v
    case JUndefined => None
    case JNull => Some(0)
    case JBool(b) => Some(if b then 1 else 0)
    case JNum(n) => Some(n)
  }

  /** The `add` helper, `a + b`: a string or an array/object on either side makes it a
      concatenation of the two texts; otherwise it is a sum of numbers, `None` standing
      for NaN. */
  function Add(a: JsValue, b: JsValue): (r: Option<JsValue>)
    ensures a.JNum? && b.JNum? ==> r == Some(JNum(a.n + b.n))
    ensures a.JStr? || b.JStr? || a.JComposite? || b.JComposite? ==> r == Some(JStr(ToText(a) + ToText(b)))
    ensures r.None? <==> !a.JStr? && !b.JStr? && !a.JComposite? && !b.JComposite? && (a.JUndefined? || b.JUndefined?)
  {
    if a.JStr? || b.JStr? || a.JComposite? || b.JComposite? then Some(JStr(ToText(a) + ToText(b)))
    else
      var x, y := ToNumber(a), ToNumber(b);
      if x.Some? && y.Some? then Some(JNum(x.value + y.value)) else None
  }

  /** The `eq` helper, `a === b`. Two arrays or objects read from data are distinct
      objects, so they are never identical. */
  predicate Eq(a: JsValue, b: JsValue) {
    !a.JComposite? && a == b
  }

  /** `eq` is symmetric, and every primitive value is identical to itself. */
  lemma EqIsStrictEquality(a: JsValue, b: JsValue)
    ensures Eq(a, b) <==> Eq(b, a)
    ensures !a.JComposite? ==> Eq(a, a)
    ensures Eq(a, b) ==> ToText(a) == ToText(b)
  {
  }

  /** The `contains` helper, `str && str.includes(substring)`: a falsy `str` is returned
      as it is, a string answers whether it contains the text of `substring`. `None` when
      `includes` throws (a number or `true`) or is the array method, which is not
      modelled. */
  function ContainsHelper(str: JsValue, substring: JsValue): (r: Option<JsValue>)
    ensures !Truthy(str) ==> r == Some(str)
    ensures str.JStr? && str.s != "" ==> r.Some? && r.value.JBool?
    ensures r == Some(JBool(true)) ==> str.JStr? && Contains(str.s, ToText(substring))
    ensures str.JStr? && str.s != "" && Contains(str.s, ToText(substring)) ==> r == Some(JBool(true))
  {
    if !Truthy(str) then Some(str)
    else if str.JStr? then Some(JBool(Contains(str.s, ToText(substring))))
    else None
  }

  /** The value of helper `name` on two arguments, for a registered helper. */
  function CallHelper(name: string, a: JsValue, b: JsValue): Option<JsValue>
    requires name in HelperNames
  {
    if name == "add" then Add(a, b)
    else if name == "eq" then Some(JBool(Eq(a, b)))
    else ContainsHelper(a, b)
  }

  // ---------------------------------------------------------------------------------
  // Registry

  /** The library's global registry: the partials by name and the names of the helpers. */
  class Registry {
    var partials: map<string, string>
    var helpers: set<string>

    constructor ()
      ensures partials == map[] && helpers == {}
    {
      partials, helpers := map[], {};
    }

    /** `Handlebars.registerPartial(name, text)`: a later registration replaces an earlier
        one. */
    method RegisterPartial(name: string, text: string)
      modifies this
      ensures partials == old(partials)[name := text]
      ensures helpers == old(helpers)
    {
      partials := partials[name := text];
    }

    /** `registerHelpers`: `add`, `eq` and `contains`. */
    method RegisterHelpers()
      modifies this
      ensures helpers == old(helpers) + HelperNames
      ensures partials == old(partials)
    {
      helpers := helpers + {"add"};
      helpers := helpers + {"eq"};
      helpers := helpers + {"contains"};
    }
  }
}
