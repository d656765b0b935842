/**
 * The XML-RPC values the model covers: nil, string, int, boolean, array and
 * struct (double, dateTime.iso8601 and base64 are not modelled).
 *
 * Nil stands for Java's null. A Vec is a java.util.Vector. A Table is a
 * java.util.Hashtable, written as its entries in the table's own iteration
 * order; that order is what Hashtable.toString follows.
 */
module RpcValue {
  import opened Optional
  import opened Text

  datatype Value =
    | Nil
    | Str(s: string)
    | Int(i: int)
    | Bool(b: bool)
    | Vec(items: seq<Value>)
    | Table(entries: seq<Entry>)

  datatype Entry = Entry(key: string, val: Value)

  /** String.valueOf(v): the text a handler receives for the event's value. */
  function ValueOf(v: Value): string
    decreases v, 1
  {
    match v
    case Nil => "null"
    case Str(s) => s
    case Int(i) => IntToString(i)
    case Bool(b) => if b then "true" else "false"
    case Vec(_) => "[" + ItemsText(v, 0) + "]"
    case Table(_) => "{" + EntriesText(v, 0) + "}"
  }

  /** Vector.toString from position i on: the items joined by ", ". */
  function ItemsText(v: Value, i: nat): string
    requires v.Vec?
    decreases v, 0, |v.items| - i
  {
    if i >= |v.items| then ""
    else (if i > 0 then ", " else "") + ValueOf(v.items[i]) + ItemsText(v, i + 1)
  }

  /** Hashtable.toString from entry i on: key=value pairs joined by ", ". */
  function EntriesText(v: Value, i: nat): string
    requires v.Table?
    decreases v, 0, |v.entries| - i
  {
    if i >= |v.entries| then ""
    else
      var e := v.entries[i];
      assert e.val < e;
      (if i > 0 then ", " else "") + e.key + "=" + ValueOf(e.val) + EntriesText(v, i + 1)
  }

  /** Hashtable.get(key): the position of the entry for key, None when absent. */
  function Lookup(entries: seq<Entry>, key: string): (r: Option<nat>)
    ensures r.Some? ==> r.value < |entries| && entries[r.value].key == key
    ensures r.Some? ==> forall j | 0 <= j < r.value :: entries[j].key != key
    ensures r.None? <==> forall j | 0 <= j < |entries| :: entries[j].key != key
  {
    if entries == [] then None
    else if entries[0].key == key then Some(0)
    else match Lookup(entries[1..], key)
      case None => None
      case Some(k) => Some(k + 1)
  }
}
