/** Unstructured objects as JSON trees, with the nested accessors the planner uses. */
module PlannerJson {
  import opened Common

  datatype Json = Null | Bool(value: bool) | Num(number: int) | Str(text: string) | Arr(items: seq<Json>) | Obj(fields: map<string, Json>)

  /** The value under a key; an absent key and a value without keys read alike. */
  function Get(v: Json, key: string): Option<Json> {
    if v.Obj? && key in v.fields then Some(v.fields[key]) else None
  }

  function Nested(v: Json, path: seq<string>): Option<Json> {
    if path == [] then Some(v)
    else match Get(v, path[0]) case Some(next) => Nested(next, path[1..]) case None => None
  }

  function NestedObj(v: Json, path: seq<string>): Option<Json> {
    match Nested(v, path) case Some(Obj(fields)) => Some(Obj(fields)) case _ => None
  }

  function NestedArr(v: Json, path: seq<string>): Option<seq<Json>> {
    match Nested(v, path) case Some(Arr(items)) => Some(items) case _ => None
  }

  /** The string at a path; anything else reads as the empty string. */
  function NestedStr(v: Json, path: seq<string>): string {
    match Nested(v, path) case Some(Str(text)) => text case _ => ""
  }

  function TextOf(v: Json, key: string): string { NestedStr(v, [key]) }

  function Remove(v: Json, path: seq<string>): Json
    requires path != []
  {
    if !v.Obj? then v
    else if |path| == 1 then Obj(v.fields - {path[0]})
    else if path[0] in v.fields then Obj(v.fields[path[0] := Remove(v.fields[path[0]], path[1..])])
    else v
  }

  /** Sets the value at a path; missing objects on the way are created, and nothing
      happens when something else is in the way. */
  function Set(v: Json, path: seq<string>, value: Json): Json
    requires path != []
    decreases path
  {
    if !v.Obj? then v
    else if |path| == 1 then Obj(v.fields[path[0] := value])
    else if path[0] !in v.fields then Obj(v.fields[path[0] := Set(Obj(map[]), path[1..], value)])
    else Obj(v.fields[path[0] := Set(v.fields[path[0]], path[1..], value)])
  }

  lemma NestedStep(v: Json, path: seq<string>, key: string)
    requires path != [] && path[0] == key
    ensures Nested(v, path) == match Get(v, key) case Some(next) => Nested(next, path[1..]) case None => None
  {}

  /** Paths that part at some key. */
  predicate Apart(p: seq<string>, q: seq<string>) {
    p != [] && q != [] && (p[0] != q[0] || Apart(p[1..], q[1..]))
  }

  lemma {:induction false} RemoveApart(v: Json, p: seq<string>, q: seq<string>)
    requires Apart(p, q)
    ensures Nested(Remove(v, p), q) == Nested(v, q)
  {
    if v.Obj? && |p| > 1 && p[0] in v.fields && p[0] == q[0] { RemoveApart(v.fields[p[0]], p[1..], q[1..]); }
  }

  lemma {:induction false} SetApart(v: Json, p: seq<string>, q: seq<string>, value: Json)
    requires Apart(p, q)
    ensures Nested(Set(v, p, value), q) == Nested(v, q)
    decreases p
  {
    if v.Obj? && |p| > 1 && p[0] == q[0] {
      if p[0] in v.fields { SetApart(v.fields[p[0]], p[1..], q[1..], value); }
      else {
        SetApart(Obj(map[]), p[1..], q[1..], value);
        EmptyNested(q[1..]);
      }
    }
  }

  lemma EmptyNested(q: seq<string>)
    requires q != []
    ensures Nested(Obj(map[]), q) == None
  {}

  /** Setting a value below a path that leads to an object. */
  lemma {:induction false} SetThere(v: Json, p: seq<string>, value: Json)
    requires p != [] && Nested(v, p).Some?
    ensures Nested(Set(v, p, value), p) == Some(value)
  {
    if |p| > 1 {
      SetThere(v.fields[p[0]], p[1..], value);
    } else {
      assert p[1..] == [];
    }
  }
}
