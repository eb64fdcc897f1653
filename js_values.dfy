/** The values a Deno KV store holds for this program, as JavaScript sees
    them: strings, plain objects and arrays, with object spread (`...v`)
    and property reads (`v.key`). */
module JsValues {
  import opened OptionMonad

  datatype Value = Str(s: string) | Obj(fields: map<string, Value>) | Arr(items: seq<Value>)

  predicate IsDigit(c: char) {
    '0' <= c <= '9'
  }

  predicate AllDigits(s: string) {
    forall i :: 0 <= i < |s| ==> IsDigit(s[i])
  }

  /** The decimal numeral of `n`: the property key of index `n`. */
  function DecimalString(n: nat): (s: string)
    ensures |s| > 0 && AllDigits(s)
    decreases n
  {
    var last := [('0' as int + n % 10) as char];
    if n < 10 then last else DecimalString(n / 10) + last
  }

  /** The own properties of an array (or of a string's characters): index
      keys `"0"`, `"1"`, … mapped to the elements. */
  function IndexEntries(items: seq<Value>): (m: map<string, Value>)
    ensures forall key :: key in m ==> AllDigits(key)
    decreases |items|
  {
    if items == [] then map[]
    else IndexEntries(items[..|items| - 1])[DecimalString(|items| - 1) := items[|items| - 1]]
  }

  /** The properties `{...v}` copies out of `v`. */
  function Spread(v: Value): map<string, Value> {
    match v
    case Obj(fields) => fields
    case Arr(items) => IndexEntries(items)
    case Str(s) => IndexEntries(seq(|s|, i requires 0 <= i < |s| => Str([s[i]])))
  }

  /** `v.key`: the property, or `None` for `undefined`. */
  function FieldOf(v: Value, key: string): Option<Value> {
    if key in Spread(v) then Some(Spread(v)[key]) else None
  }

  /** Reading a named (non-index) property of an array gives `undefined`
      (`length` is not modelled). */
  lemma NamedFieldOfArray(items: seq<Value>, key: string)
    requires !AllDigits(key)
    ensures FieldOf(Arr(items), key) == None
  {
  }

  /** Spreading a one-element array gives the single property `"0"`. */
  lemma SpreadSingleton(x: Value)
    ensures Spread(Arr([x])) == map["0" := x]
  {
    assert [x][..0] == [];
    assert IndexEntries([]) == map[];
    assert DecimalString(0) == "0";
    assert IndexEntries([x]) == IndexEntries([])[DecimalString(0) := x];
  }
}
