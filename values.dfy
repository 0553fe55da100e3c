/** The dynamically typed values the source handles: settings as the
    configuration dictionary holds them, and JSON documents as `json.load`
    returns them. */
module Values {
  import opened Text

  datatype Option<T> = None | Some(value: T)

  /** One setting's value: JSON `null`, a boolean, an integer or a string. */
  datatype Value = Null | Bool(b: bool) | Int(i: int) | Str(s: string)

  /** The settings dictionary. */
  type Settings = map<string, Value>

  /** `settings.get(key)`: `None` for a missing key. */
  function Get(m: Settings, key: string): Value {
    if key in m then m[key] else Null
  }

  /** Python truthiness, as in `if settings.get(key):`. */
  predicate Truthy(v: Value) {
    match v
    case Null => false
    case Bool(b) => b
    case Int(i) => i != 0
    case Str(s) => s != ""
  }

  /** `str(value)`, also what an f-string inserts. */
  function PyStr(v: Value): string {
    match v
    case Null => "None"
    case Bool(b) => if b then "True" else "False"
    case Int(i) => DecimalString(i)
    case Str(s) => s
  }

  /** A decoded JSON document. An object's members are those of the
      dictionary `json.load` builds: each key once, in the order of its first
      occurrence in the file, with the value of its last occurrence; so the
      first member with a key is the only one. */
  datatype Json =
    | JNull
    | JBool(b: bool)
    | JNum(n: int)
    | JStr(s: string)
    | JArr(items: seq<Json>)
    | JObj(members: seq<(string, Json)>)

  /** `key in obj` for a JSON object's members. */
  predicate HasKey(members: seq<(string, Json)>, key: string) {
    exists k :: 0 <= k < |members| && members[k].0 == key
  }

  /** `obj[key]`: the value of the member with that key (the first, which
      for a decoded object is the only one). */
  function Lookup(members: seq<(string, Json)>, key: string): (v: Json)
    requires HasKey(members, key)
    ensures exists k :: 0 <= k < |members| && members[k] == (key, v)
  {
    if members[0].0 == key then members[0].1
    else
      assert HasKey(members[1..], key) by {
        var k :| 0 <= k < |members| && members[k].0 == key;
        assert members[1..][k - 1] == members[k];
      }
      var v := Lookup(members[1..], key);
      ghost var k :| 0 <= k < |members[1..]| && members[1..][k] == (key, v);
      assert members[k + 1] == (key, v);
      v
  }
}
