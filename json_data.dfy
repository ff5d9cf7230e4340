/**
 * The values the payload holds: what Python keeps in its field and option
 * dicts, restricted to what JSON can carry (floating point left out).
 * Python's `None` is `JNull`.
 */
module JsonData {
  import opened Wrappers

  datatype Json =
    | JNull
    | JBool(b: bool)
    | JInt(i: int)
    | JStr(s: string)
    | JList(items: seq<Json>)
    | JObject(fields: map<string, Json>)

  /** A Python list of strings. */
  function StrList(xs: seq<string>): (j: Json)
    ensures j.JList? && |j.items| == |xs|
    ensures forall i :: 0 <= i < |xs| ==> j.items[i] == JStr(xs[i])
  {
    JList(seq(|xs|, i requires 0 <= i < |xs| => JStr(xs[i])))
  }

  /** Reads a list of strings back; `None` when some item is not a string. */
  function AsStrings(j: Json): Option<seq<string>>
  {
    if j.JList? && forall i :: 0 <= i < |j.items| ==> j.items[i].JStr?
    then Some(seq(|j.items|, i requires 0 <= i < |j.items| && j.items[i].JStr? => j.items[i].s))
    else None
  }

  /** A list of strings reads back as the strings it was built from. */
  lemma AsStringsOfStrList(xs: seq<string>)
    ensures AsStrings(StrList(xs)) == Some(xs)
  {
    var j := StrList(xs);
    assert AsStrings(j).Some?;
    var ys := AsStrings(j).value;
    assert |ys| == |xs|;
    assert forall i :: 0 <= i < |xs| ==> ys[i] == j.items[i].s == xs[i];
    assert ys == xs;
  }
}
