/** JSON values as Python and JavaScript hold them after parsing. */
module Json {
  import opened Wrappers

  datatype Json =
    | Null
    | Bool(b: bool)
    | Number(n: real)
    | Text(s: string)
    | Array(items: seq<Json>)
    | Object(members: seq<Member>)

  datatype Member = Member(key: string, value: Json)

  /** The elements of a list, the values of a dict, nothing for a scalar. */
  function Children(j: Json): (r: seq<Json>)
    ensures forall c :: c in r ==> c < j
  {
    match j
    case Array(items) => items
    case Object(members) => seq(|members|, i requires 0 <= i < |members| => members[i].value)
    case _ => []
  }

  /** The value at the end of a path of positions, each an element of a list or a value of a dict. */
  function Follow(j: Json, path: seq<nat>): Option<Json>
    decreases |path|
  {
    if path == [] then Some(j)
    else
      match j
      case Array(items) => if path[0] < |items| then Follow(items[path[0]], path[1..]) else None
      case Object(members) => if path[0] < |members| then Follow(members[path[0]].value, path[1..]) else None
      case _ => None
  }

  /** The children are what the paths of one position lead to. */
  lemma ChildrenAreNext(j: Json, path: seq<nat>)
    ensures path != [] ==>
              Follow(j, path) == if path[0] < |Children(j)| then Follow(Children(j)[path[0]], path[1..]) else None
  {
  }

  predicate HasKey(j: Json, key: string) {
    j.Object? && exists i :: 0 <= i < |j.members| && j.members[i].key == key
  }

  /** The value of a key, if `j` is a dict that has it. */
  function Get(j: Json, key: string): (r: Option<Json>)
    ensures r.Some? <==> HasKey(j, key)
  {
    if j.Object? then Lookup(j.members, key) else None
  }

  function Lookup(members: seq<Member>, key: string): (r: Option<Json>)
    ensures r.Some? <==> exists i :: 0 <= i < |members| && members[i].key == key
  {
    if members == [] then None
    else if members[0].key == key then Some(members[0].value)
    else Lookup(members[1..], key)
  }
}
