/** Values produced by Python's json module and the handful of Python operations
    the two scripts apply to them: `in`, subscripting, item assignment, `.get`,
    `len` and truthiness, each with the exception Python raises when the value
    has the wrong shape. */
module PyJson {

  /** A decoded JSON document. JSON numbers are integers here; JSON object keys
      are always strings, so an object is a map from strings. */
  datatype Json =
    | JNull
    | JBool(b: bool)
    | JNum(n: int)
    | JStr(s: string)
    | JArr(items: seq<Json>)
    | JObj(fields: map<string, Json>)

  /** The Python exceptions that the scripts raise and no handler of theirs catches. */
  datatype Exc = KeyError | TypeError | IndexError | AttributeError | RuntimeError

  datatype Option<T> = None | Some(value: T)

  /** The value of a Python expression, or the exception it raised. */
  datatype Result<T> = Ok(value: T) | Raise(exc: Exc)

  /** Python's `bool(j)`: None, False, 0, "", [] and {} are false. */
  predicate Truthy(j: Json) {
    match j
    case JNull => false
    case JBool(b) => b
    case JNum(n) => n != 0
    case JStr(s) => s != ""
    case JArr(items) => items != []
    case JObj(fields) => fields != map[]
  }

  /** Python's `needle in hay` on two strings. */
  predicate IsSubstring(needle: string, hay: string)
    decreases |hay|
  {
    needle <= hay || (hay != [] && IsSubstring(needle, hay[1..]))
  }

  /** Python's `key in container` for a string `key`: a dictionary key test,
      list membership, a substring test, or a TypeError for anything else. */
  function In(key: string, container: Json): Result<bool> {
    match container
    case JObj(fields) => Ok(key in fields)
    case JArr(items) => Ok(JStr(key) in items)
    case JStr(s) => Ok(IsSubstring(key, s))
    case _ => Raise(TypeError)
  }

  /** Python's `outer in j and inner in j[outer]`, which evaluates `j[outer]`
      only when the first test holds. */
  function NestedIn(j: Json, outer: string, inner: string): Result<bool> {
    match In(outer, j)
    case Raise(e) => Raise(e)
    case Ok(false) => Ok(false)
    case Ok(true) =>
      match Key(j, outer)
      case Raise(e) => Raise(e)
      case Ok(child) => In(inner, child)
  }

  /** The integer a Python index expression stands for (`True` is 1). */
  function IntIndex(key: Json): Option<int> {
    match key
    case JNum(n) => Some(n)
    case JBool(b) => Some(if b then 1 else 0)
    case _ => None
  }

  /** The position Python's `xs[i]` reads in a sequence of length `len`,
      counting negative indices from the end; None is an IndexError. */
  function Position(i: int, len: nat): (r: Option<nat>)
    ensures r.Some? <==> -(len as int) <= i < len
    ensures r.Some? ==> r.value < len && (r.value == i || r.value == len + i)
  {
    if 0 <= i < len then Some(i)
    else if -(len as int) <= i < 0 then Some(len + i)
    else None
  }

  /** Python's `container[key]`. */
  function Subscript(container: Json, key: Json): Result<Json> {
    match container
    case JObj(fields) =>
      (match key
       case JStr(k) => if k in fields then Ok(fields[k]) else Raise(KeyError)
       case JArr(_) => Raise(TypeError)   // unhashable key
       case JObj(_) => Raise(TypeError)   // unhashable key
       case _ => Raise(KeyError))         // no JSON object has a non-string key
    case JArr(items) =>
      (match IntIndex(key)
       case None => Raise(TypeError)
       case Some(i) =>
         match Position(i, |items|)
         case None => Raise(IndexError)
         case Some(p) => Ok(items[p]))
    case JStr(s) =>
      (match IntIndex(key)
       case None => Raise(TypeError)
       case Some(i) =>
         match Position(i, |s|)
         case None => Raise(IndexError)
         case Some(p) => Ok(JStr([s[p]])))
    case _ => Raise(TypeError)
  }

  /** Python's `container["k"]`. */
  function Key(container: Json, k: string): Result<Json> {
    Subscript(container, JStr(k))
  }

  /** Python's `container.get(k)`: None when the key is absent; only
      dictionaries have the method. */
  function Get(container: Json, k: string): Result<Json> {
    match container
    case JObj(fields) => Ok(if k in fields then fields[k] else JNull)
    case _ => Raise(AttributeError)
  }

  /** Python's `len(j)`. */
  function Len(j: Json): Result<nat> {
    match j
    case JArr(items) => Ok(|items|)
    case JObj(fields) => Ok(|fields|)
    case JStr(s) => Ok(|s|)
    case _ => Raise(TypeError)
  }

  /** Python's `container[k] = v` for a string key `k`: only a dictionary
      supports it (a list needs an integer index, a string is immutable). */
  function SetItem(container: Json, k: string, v: Json): (r: Result<Json>)
    ensures r.Ok? <==> container.JObj?
    ensures r.Raise? ==> r.exc == TypeError
    ensures r.Ok? ==> r.value.JObj? && r.value.fields.Keys == container.fields.Keys + {k}
    ensures r.Ok? ==> r.value.fields[k] == v
    ensures r.Ok? ==> forall j :: j in container.fields && j != k ==> r.value.fields[j] == container.fields[j]
  {
    match container
    case JObj(fields) => Ok(JObj(fields[k := v]))
    case _ => Raise(TypeError)
  }

  /** One subscript of a Python reference chain such as `a["x"][0]["y"]`. */
  datatype Step = Field(name: string) | Index(i: int)

  function Step1(container: Json, s: Step): Result<Json> {
    match s
    case Field(name) => Subscript(container, JStr(name))
    case Index(i) => Subscript(container, JNum(i))
  }

  /** The value `root[p0][p1]...` denotes, or the first exception on the way. */
  function Lookup(root: Json, path: seq<Step>): Result<Json>
    decreases |path|
  {
    if path == [] then Ok(root)
    else
      match Step1(root, path[0])
      case Raise(e) => Raise(e)
      case Ok(child) => Lookup(child, path[1..])
  }

  /** Writes back a child that `Step1(container, s)` has just read successfully;
      on any other shape the container is returned as it is. */
  function Put(container: Json, s: Step, child: Json): Json {
    match (container, s)
    case (JObj(fields), Field(name)) => JObj(fields[name := child])
    case (JArr(items), Index(i)) =>
      (match Position(i, |items|)
       case Some(p) => JArr(items[p := child])
       case None => container)
    case _ => container
  }

  /** The document after Python's `root[p0]...[pn][k] = v`: every subscript on
      the way is evaluated first (and may raise), then the innermost value must
      be a dictionary. Parsed JSON shares no sub-objects, so updating the value
      in place and rebuilding the path to it are the same. */
  function Assign(root: Json, path: seq<Step>, k: string, v: Json): Result<Json>
    decreases |path|
  {
    if path == [] then SetItem(root, k, v)
    else
      match Step1(root, path[0])
      case Raise(e) => Raise(e)
      case Ok(child) =>
        match Assign(child, path[1..], k, v)
        case Raise(e) => Raise(e)
        case Ok(child') => Ok(Put(root, path[0], child'))
  }

  /** A path whose list indices are all non-negative; on such paths two
      different steps never denote the same element. */
  predicate Plain(path: seq<Step>) {
    forall j :: 0 <= j < |path| && path[j].Index? ==> path[j].i >= 0
  }

  /** Neither path is a prefix of the other: they part at some step. */
  predicate Diverge(p: seq<Step>, q: seq<Step>)
    decreases |p|
  {
    p != [] && q != [] && (p[0] != q[0] || Diverge(p[1..], q[1..]))
  }

  /** Assignment succeeds exactly when the reference chain reaches a
      dictionary; otherwise it raises the chain's own exception, or TypeError
      when the chain reaches something other than a dictionary. */
  lemma {:induction false} AssignSucceeds(root: Json, path: seq<Step>, k: string, v: Json)
    ensures Assign(root, path, k, v).Ok? <==> Lookup(root, path).Ok? && Lookup(root, path).value.JObj?
    ensures Assign(root, path, k, v).Raise? && Lookup(root, path).Raise? ==>
              Assign(root, path, k, v).exc == Lookup(root, path).exc
    ensures Lookup(root, path).Ok? && !Lookup(root, path).value.JObj? ==>
              Assign(root, path, k, v) == Raise(TypeError)
    decreases |path|
  {
    if path != [] {
      match Step1(root, path[0])
      case Raise(e) =>
      case Ok(child) => AssignSucceeds(child, path[1..], k, v);
    }
  }

  /** A Python string supports no item assignment, at any depth. */
  lemma {:induction false} StringsAreImmutable(str: string, path: seq<Step>, k: string, v: Json)
    ensures Assign(JStr(str), path, k, v).Raise?
    decreases |path|
  {
    if path != [] {
      match Step1(JStr(str), path[0])
      case Raise(e) =>
      case Ok(child) =>
        assert child.JStr?;
        StringsAreImmutable(child.s, path[1..], k, v);
    }
  }

  lemma PutThenStep(container: Json, s: Step, child: Json, child': Json)
    requires Step1(container, s) == Ok(child)
    requires !container.JStr?
    ensures Step1(Put(container, s, child'), s) == Ok(child')
  {
  }

  /** After `root[path][k] = v`, reading `root[path][k]` gives back `v`. */
  lemma {:induction false} AssignThenLookup(root: Json, path: seq<Step>, k: string, v: Json)
    requires Assign(root, path, k, v).Ok?
    ensures Lookup(Assign(root, path, k, v).value, path + [Field(k)]) == Ok(v)
    decreases |path|
  {
    var r := Assign(root, path, k, v).value;
    if path == [] {
      assert Step1(r, Field(k)) == Ok(v);
      var last: seq<Step> := [Field(k)];
      assert last[1..] == [];
    } else {
      var child := Step1(root, path[0]).value;
      var child' := Assign(child, path[1..], k, v).value;
      AssignThenLookup(child, path[1..], k, v);
      if root.JStr? {
        StringsAreImmutable(root.s, path, k, v);
      }
      PutThenStep(root, path[0], child, child');
      assert (path + [Field(k)])[1..] == path[1..] + [Field(k)];
    }
  }

  lemma PutFrame(container: Json, s: Step, t: Step, child: Json, child': Json)
    requires Step1(container, s) == Ok(child)
    requires s != t
    requires s.Index? ==> s.i >= 0
    requires t.Index? ==> t.i >= 0
    ensures Step1(Put(container, s, child'), t) == Step1(container, t)
  {
  }

  /** After `root[path][k] = v`, every reference chain that parts from
      `path + [k]` (and uses no negative index) reads what it read before. */
  lemma {:induction false} AssignFrame(root: Json, path: seq<Step>, k: string, v: Json, q: seq<Step>)
    requires Assign(root, path, k, v).Ok?
    requires Plain(path) && Plain(q)
    requires Diverge(path + [Field(k)], q)
    ensures Lookup(Assign(root, path, k, v).value, q) == Lookup(root, q)
    decreases |path|
  {
    var r := Assign(root, path, k, v).value;
    var p' := path + [Field(k)];
    if path == [] {
      assert p'[0] == Field(k);
      assert p'[1..] == [];
      assert !Diverge(p'[1..], q[1..]);
      assert Step1(r, q[0]) == Step1(root, q[0]);
    } else {
      var child := Step1(root, path[0]).value;
      var child' := Assign(child, path[1..], k, v).value;
      assert p'[0] == path[0];
      assert p'[1..] == path[1..] + [Field(k)];
      assert Plain(path[1..]) by {
        forall j | 0 <= j < |path[1..]| && path[1..][j].Index? ensures path[1..][j].i >= 0 {
          assert path[1..][j] == path[j + 1];
        }
      }
      assert Plain(q[1..]) by {
        forall j | 0 <= j < |q[1..]| && q[1..][j].Index? ensures q[1..][j].i >= 0 {
          assert q[1..][j] == q[j + 1];
        }
      }
      if root.JStr? {
        StringsAreImmutable(root.s, path, k, v);
      }
      if q[0] == path[0] {
        PutThenStep(root, path[0], child, child');
        AssignFrame(child, path[1..], k, v, q[1..]);
      } else {
        assert path[0].Index? ==> path[0].i >= 0;
        assert q[0].Index? ==> q[0].i >= 0;
        PutFrame(root, path[0], q[0], child, child');
      }
    }
  }

  /** Reading along `p + q` is reading `q` from what `p` reaches. */
  lemma {:induction false} LookupAppend(root: Json, p: seq<Step>, q: seq<Step>)
    ensures Lookup(root, p + q) ==
              match Lookup(root, p)
              case Raise(e) => Raise(e)
              case Ok(mid) => Lookup(mid, q)
    decreases |p|
  {
    if p == [] {
      assert p + q == q;
    } else {
      assert (p + q)[0] == p[0];
      assert (p + q)[1..] == p[1..] + q;
      match Step1(root, p[0])
      case Raise(e) =>
      case Ok(child) => LookupAppend(child, p[1..], q);
    }
  }

  /** After `root[p + q][k] = v`, what `p` reaches is what assigning along `q`
      makes of what `p` reached before. */
  lemma {:induction false} AssignDeep(root: Json, p: seq<Step>, q: seq<Step>, k: string, v: Json)
    requires Assign(root, p + q, k, v).Ok?
    ensures Lookup(root, p).Ok?
    ensures Lookup(Assign(root, p + q, k, v).value, p) == Assign(Lookup(root, p).value, q, k, v)
    decreases |p|
  {
    if p == [] {
      assert p + q == q;
    } else {
      assert (p + q)[0] == p[0];
      assert (p + q)[1..] == p[1..] + q;
      var child := Step1(root, p[0]).value;
      var child' := Assign(child, p[1..] + q, k, v).value;
      if root.JStr? {
        StringsAreImmutable(root.s, p + q, k, v);
      }
      PutThenStep(root, p[0], child, child');
      AssignDeep(child, p[1..], q, k, v);
    }
  }
}
