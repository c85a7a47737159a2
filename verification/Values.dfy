/** Untyped values as they come out of YAML and JSON, and the built-in operations on them that
    stay uninterpreted. */
module Values {
  import opened Prelude

  datatype Value =
    | Null
    | Flag(flag: bool)
    | Number(number: real)
    | Str(text: string)
    | Listing(items: seq<Value>)
    | Fields(entries: Dict)

  datatype Entry = Entry(key: string, value: Value)

  /** A dictionary in insertion order. */
  type Dict = seq<Entry>

  type Params = map<string, Value>

  datatype Rendering = Rendered(text: string) | KeyMissing | Raises

  /** What the language runtime supplies: rendering a non-string as text, lower case, the upper
      case of one character, truth values, numeric comparison (false when a side is not numeric),
      and replacement fields with attribute access, conversions or format specifications. */
  datatype Builtins = Builtins(
    show: Value -> string,
    lower: string -> string,
    upper: char -> string,
    truthy: Value -> bool,
    compare: (string, Value, Value) -> bool,
    elaborate: (string, Params) -> Rendering)

  function Lookup(d: Dict, key: string): (r: Option<Value>)
    ensures r.Some? ==> exists i :: 0 <= i < |d| && d[i] == Entry(key, r.value)
    ensures r.None? ==> forall i :: 0 <= i < |d| ==> d[i].key != key
  {
    if d == [] then None else if d[0].key == key then Some(d[0].value) else
      var r := Lookup(d[1..], key);
      assert r.Some? ==> forall i :: 0 <= i < |d[1..]| ==> d[1..][i] == d[i + 1];
      r
  }

  predicate DistinctKeys(d: Dict) {
    forall i, j :: 0 <= i < j < |d| ==> d[i].key != d[j].key
  }

  /** The text a value contributes to a formatted string. */
  function Shown(b: Builtins, v: Value): string {
    if v.Str? then v.text else b.show(v)
  }

  function Upper(b: Builtins, s: string): string {
    if s == "" then "" else b.upper(s[0]) + Upper(b, s[1..])
  }

  lemma {:induction false} UpperAppend(b: Builtins, s: string, t: string)
    ensures Upper(b, s + t) == Upper(b, s) + Upper(b, t)
  {
    if s == "" {
      assert s + t == t;
    } else {
      assert (s + t)[1..] == s[1..] + t;
      UpperAppend(b, s[1..], t);
    }
  }

  lemma {:induction false} UpperFixed(b: Builtins, s: string)
    requires forall i :: 0 <= i < |s| ==> b.upper(s[i]) == [s[i]]
    ensures Upper(b, s) == s
  {
    if s != "" { UpperFixed(b, s[1..]); }
  }
}
