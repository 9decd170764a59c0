/**
 * The JavaScript values the handler manipulates: parsed JSON, the `undefined`
 * that a missing property reads as, truthiness, the `||` operator, property
 * reads, and conversion to text inside a template literal.
 */
module JsValues {
  import opened Decimal

  /** 2^53: every integer of at most this magnitude is an exact IEEE-754 double. */
  const MaxSafeMagnitude: int := 0x20_0000_0000_0000

  /**
   * The integral numbers JSON.parse yields exactly. Within this range String()
   * prints the exact decimal value, which is what IntToString renders.
   */
  type SafeInteger = n: int | -MaxSafeMagnitude <= n <= MaxSafeMagnitude

  /** A value produced by JSON.parse. Numbers are integers of magnitude at most 2^53. */
  datatype Json =
    | JNull
    | JBool(b: bool)
    | JNum(n: SafeInteger)
    | JStr(s: string)
    | JArr(items: seq<Json>)
    | JObj(fields: map<string, Json>)

  /** The result of reading a property: `undefined`, or a JSON value. */
  datatype Value = Undefined | Def(json: Json)

  /** The exception a property read on null, or `.map` on a non-array, raises. */
  datatype Thrown = TypeError

  /** JavaScript truthiness: undefined, null, false, 0 and "" are falsy, everything else truthy. */
  predicate Truthy(v: Value)
    ensures !Truthy(v) <==>
              v == Undefined || v == Def(JNull) || v == Def(JBool(false)) ||
              v == Def(JNum(0)) || v == Def(JStr(""))
  {
    match v
    case Undefined => false
    case Def(j) =>
      match j
      case JNull => false
      case JBool(b) => b
      case JNum(n) => n != 0
      case JStr(s) => s != ""
      case JArr(_) => true
      case JObj(_) => true
  }

  /** `a || b`: the left operand when it is truthy, the right one otherwise. */
  function Or(a: Value, b: Value): (r: Value)
    ensures Truthy(r) <==> Truthy(a) || Truthy(b)
    ensures Truthy(a) ==> r == a
    ensures !Truthy(a) ==> r == b
  {
    if Truthy(a) then a else b
  }

  /**
   * Reference definition of a chain `v0 || v1 || ... || vn`: the index of the
   * value the chain yields. Every operand before it is falsy, and it is either
   * truthy or the last operand.
   */
  function FirstTruthyIndex(vs: seq<Value>): (k: nat)
    requires |vs| > 0
    ensures k < |vs|
    ensures forall j :: 0 <= j < k ==> !Truthy(vs[j])
    ensures Truthy(vs[k]) || k == |vs| - 1
    decreases |vs|
  {
    if |vs| == 1 || Truthy(vs[0]) then 0 else 1 + FirstTruthyIndex(vs[1..])
  }

  /** `(a || b) || c` is the three-operand chain of the reference definition. */
  lemma OrChain3(a: Value, b: Value, c: Value)
    ensures Or(Or(a, b), c) == [a, b, c][FirstTruthyIndex([a, b, c])]
  {
  }

  /**
   * Reading `obj.key` where obj is not null. A JSON object reads its own entry;
   * every other JSON value has no such property (the keys the handler reads are
   * not names of built-in properties) and reads as undefined. Reading a
   * property of null throws, so null is excluded here and handled by callers.
   */
  function Property(obj: Json, key: string): (v: Value)
    requires !obj.JNull?
    ensures v.Def? <==> obj.JObj? && key in obj.fields
    ensures v.Def? ==> v.json == obj.fields[key]
  {
    match obj
    case JObj(fields) => if key in fields then Def(fields[key]) else Undefined
    case _ => Undefined
  }

  /** The total length of the parts. */
  function SumLengths(parts: seq<string>): nat
    decreases |parts|
  {
    if |parts| == 0 then 0 else |parts[0]| + SumLengths(parts[1..])
  }

  /**
   * `items.join(",")` after each item has been turned into text: the parts in
   * order, starting with the first, with one comma between neighbours.
   */
  function Join(parts: seq<string>): (s: string)
    ensures |parts| == 0 ==> s == ""
    ensures |parts| > 0 ==> parts[0] <= s && |s| == SumLengths(parts) + |parts| - 1
    decreases |parts|
  {
    if |parts| == 0 then ""
    else if |parts| == 1 then parts[0]
    else parts[0] + "," + Join(parts[1..])
  }

  /** Where part i starts in the joined text: the parts before it and one comma after each. */
  function Offset(parts: seq<string>, i: nat): nat
    requires i <= |parts|
  {
    SumLengths(parts[..i]) + i
  }

  /**
   * The contents of the joined text: part i sits at Offset(parts, i) and is
   * followed by a comma unless it is the last. With the length stated by Join,
   * this fixes every character of the result.
   */
  lemma {:induction false} JoinContents(parts: seq<string>, i: nat)
    requires i < |parts|
    ensures Offset(parts, i) + |parts[i]| <= |Join(parts)|
    ensures Join(parts)[Offset(parts, i)..Offset(parts, i) + |parts[i]|] == parts[i]
    ensures i < |parts| - 1 ==>
              Offset(parts, i) + |parts[i]| < |Join(parts)| &&
              Join(parts)[Offset(parts, i) + |parts[i]|] == ','
    decreases |parts|
  {
    if i == 0 {
      assert parts[..0] == [];
    } else {
      var rest := parts[1..];
      JoinContents(rest, i - 1);
      assert parts[..i][1..] == rest[..i - 1];
      assert Offset(parts, i) == |parts[0]| + 1 + Offset(rest, i - 1);
      assert Join(parts) == parts[0] + "," + Join(rest);
    }
  }

  /** The text an element contributes to its array's String(): "" for null. */
  function ElementTexts(items: seq<Json>): (ts: seq<string>)
    ensures |ts| == |items|
    decreases items, 0
  {
    seq(|items|, i requires 0 <= i < |items| =>
      if items[i].JNull? then "" else JsonToString(items[i]))
  }

  /**
   * String(j) for a JSON value: an array renders as its elements joined by
   * commas, a null element rendering as the empty string; a plain object
   * renders as "[object Object]".
   */
  function JsonToString(j: Json): (s: string)
    ensures j.JNull? ==> s == "null"
    ensures j.JBool? ==> s == (if j.b then "true" else "false")
    ensures j.JNum? ==> s == IntToString(j.n)
    ensures j.JStr? ==> s == j.s
    ensures j.JObj? ==> s == "[object Object]"
    ensures j.JArr? ==> s == Join(ElementTexts(j.items))
    decreases j, 1
  {
    match j
    case JNull => "null"
    case JBool(b) => if b then "true" else "false"
    case JNum(n) => IntToString(n)
    case JStr(s) => s
    case JObj(_) => "[object Object]"
    case JArr(items) => Join(ElementTexts(items))
  }

  /** The text `${v}` substitutes into a template literal. */
  function TemplateString(v: Value): (s: string)
    ensures v.Undefined? ==> s == "undefined"
    ensures v.Def? ==> s == JsonToString(v.json)
  {
    match v
    case Undefined => "undefined"
    case Def(j) => JsonToString(j)
  }
}
