/** The JSON values the scripts keep in their state files, and Python's
    truthiness on them (what `x or y` and `if x:` test). */
module JsonValue {

  datatype Json =
    | JNull
    | JBool(b: bool)
    | JInt(i: int)
    | JStr(s: string)
    | JArr(items: seq<Json>)
    | JObj(fields: map<string, Json>)

  /** Python truthiness: None, False, 0, "", [] and {} are false. */
  predicate Truthy(j: Json) {
    match j
    case JNull => false
    case JBool(b) => b
    case JInt(i) => i != 0
    case JStr(s) => s != []
    case JArr(a) => a != []
    case JObj(m) => m != map[]
  }

  /** The string elements of a JSON list, as `set(lst)` sees them when
      compared with string ids. */
  function StringsOf(items: seq<Json>): (r: set<string>)
    ensures forall x :: x in r <==> JStr(x) in items
  {
    set j | j in items && j.JStr? :: j.s
  }

  /** The JSON list of strings written for a Python list of str. */
  function StrArray(ss: seq<string>): (r: Json)
    ensures r.JArr? && |r.items| == |ss|
    ensures forall x :: JStr(x) in r.items <==> x in ss
  {
    var items := seq(|ss|, k requires 0 <= k < |ss| => JStr(ss[k]));
    assert forall x :: JStr(x) in items ==> x in ss by {
      forall x | JStr(x) in items
        ensures x in ss
      {
        var k :| 0 <= k < |items| && items[k] == JStr(x);
        assert ss[k] == x;
      }
    }
    assert forall x :: x in ss ==> JStr(x) in items by {
      forall x | x in ss
        ensures JStr(x) in items
      {
        var k :| 0 <= k < |ss| && ss[k] == x;
        assert items[k] == JStr(x);
      }
    }
    JArr(items)
  }
}
