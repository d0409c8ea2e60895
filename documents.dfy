/**
 * A loaded YAML/JSON manifest and the meaning of Python's subscript read
 * `v[k]` and subscript assignment `v[k1]...[kn] = x` on it, as used by the
 * deployment configuration script (Kubernetes/configs_processor.py).
 */
module Documents {
  import opened Base

  /** A subscript: a mapping key, or a non-negative list position. */
  datatype Key = Name(name: string) | Pos(index: nat)

  /** A document node. */
  datatype Value =
    | Null
    | Bool(b: bool)
    | Int(i: int)
    | Str(s: string)
    | List(items: seq<Value>)
    | Dict(entries: map<Key, Value>)

  /** The exceptions a subscript can raise. */
  datatype PyError = KeyError | IndexError | TypeError

  /** `v[k]`. */
  function Subscript(v: Value, k: Key): (r: Result<Value, PyError>)
    ensures r.Ok? <==> (v.Dict? && k in v.entries)
                       || ((v.List? || v.Str?) && k.Pos? && k.index < (if v.List? then |v.items| else |v.s|))
  {
    match v
    case Dict(m) => if k in m then Ok(m[k]) else Err(KeyError)
    case List(xs) =>
      if k.Name? then Err(TypeError)
      else if k.index < |xs| then Ok(xs[k.index]) else Err(IndexError)
    case Str(s) =>
      if k.Name? then Err(TypeError)
      else if k.index < |s| then Ok(Str([s[k.index]])) else Err(IndexError)
    case _ => Err(TypeError)
  }

  /** `v[k] = x` on the object `v`, giving its new value. */
  function Store(v: Value, k: Key, x: Value): (r: Result<Value, PyError>)
    ensures r.Ok? <==> v.Dict? || (v.List? && k.Pos? && k.index < |v.items|)
    ensures r.Ok? ==> Subscript(r.value, k) == Ok(x)
    ensures r.Ok? ==> forall k' :: k' != k ==> Subscript(r.value, k') == Subscript(v, k')
  {
    match v
    case Dict(m) => Ok(Dict(m[k := x]))
    case List(xs) =>
      if k.Name? then Err(TypeError)
      else if k.index < |xs| then Ok(List(xs[k.index := x])) else Err(IndexError)
    case _ => Err(TypeError)
  }

  /**
   * `v[p0][p1]...`: read left to right, the chain is the read of all but the
   * last key followed by one subscript, and the first failing subscript's
   * error is the chain's.
   */
  function Lookup(v: Value, path: seq<Key>): (r: Result<Value, PyError>)
    ensures path == [] ==> r == Ok(v)
    ensures path != [] ==>
              r == (var front := Lookup(v, path[..|path| - 1]);
                    if front.Err? then front else Subscript(front.value, path[|path| - 1]))
    decreases |path|
  {
    if path == [] then Ok(v)
    else
      assert |path| > 1 ==> path[1..][..|path| - 2] == path[..|path| - 1][1..];
      match Subscript(v, path[0])
      case Err(e) => Err(e)
      case Ok(child) => Lookup(child, path[1..])
  }

  /**
   * `v[p0]...[pn-1] = x`: the reads down to the last container, then a store
   * into it; the result is the new root. On success the containers down to
   * the last key could be read, and reading the whole path gives `x` back.
   */
  function Assign(v: Value, path: seq<Key>, x: Value): (r: Result<Value, PyError>)
    requires path != []
    ensures r.Ok? ==> Lookup(v, path[..|path| - 1]).Ok?
    ensures r.Ok? ==> Lookup(r.value, path) == Ok(x)
    decreases |path|
  {
    if |path| == 1 then Store(v, path[0], x)
    else
      match Subscript(v, path[0])
      case Err(e) => Err(e)
      case Ok(child) =>
        match Assign(child, path[1..], x)
        case Err(e) => Err(e)
        case Ok(updated) =>
          assert path[..|path| - 1][1..] == path[1..][..|path| - 2];
          assert Lookup(v, path[..|path| - 1]) == Lookup(child, path[1..][..|path| - 2]);
          var r := Store(v, path[0], updated);
          assert r.Ok? ==> Lookup(r.value, path) == Lookup(updated, path[1..]);
          r
  }

  /** Neither path is a prefix of the other: they part at some position. */
  predicate Diverges(p: seq<Key>, q: seq<Key>)
    decreases |p|
  {
    p != [] && q != [] && (p[0] != q[0] || Diverges(p[1..], q[1..]))
  }

  /**
   * A nested assignment succeeds exactly when the containers down to the last
   * key can be read and the last one accepts the store, so a new key can be
   * added to a readable dict.
   */
  lemma {:induction false} AssignOkIff(v: Value, p: seq<Key>, x: Value)
    requires p != []
    ensures Assign(v, p, x).Ok? <==>
              Lookup(v, p[..|p| - 1]).Ok? && Store(Lookup(v, p[..|p| - 1]).value, p[|p| - 1], x).Ok?
    decreases |p|
  {
    if |p| == 1 {
      assert p[..0] == [];
    } else if Subscript(v, p[0]).Ok? {
      var child := Subscript(v, p[0]).value;
      var front := p[..|p| - 1];
      assert front[1..] == p[1..][..|p| - 2];
      assert Lookup(v, front) == Lookup(child, p[1..][..|p| - 2]);
      AssignOkIff(child, p[1..], x);
      if v.Str? {
        ReadThroughStr(child.s, p[1..][..|p| - 2]);
      }
    }
  }

  /** Whatever is read out of a string is a string. */
  lemma {:induction false} ReadThroughStr(s: string, q: seq<Key>)
    ensures Lookup(Str(s), q).Ok? ==> Lookup(Str(s), q).value.Str?
    decreases |q|
  {
    if q != [] && q[0].Pos? && q[0].index < |s| {
      ReadThroughStr([s[q[0].index]], q[1..]);
    }
  }

  /** An assignment leaves every path that parts from it unchanged. */
  lemma {:induction false} AssignElsewhere(v: Value, p: seq<Key>, q: seq<Key>, x: Value)
    requires p != [] && Assign(v, p, x).Ok? && Diverges(p, q)
    ensures Lookup(Assign(v, p, x).value, q) == Lookup(v, q)
    decreases |p|
  {
    if p[0] == q[0] {
      var child := Subscript(v, p[0]).value;
      AssignElsewhere(child, p[1..], q[1..], x);
    }
  }

  /** A path ending in a mapping key cannot be read through a string. */
  lemma {:induction false} LookupThroughStrFails(s: string, q: seq<Key>)
    requires q != [] && q[|q| - 1].Name?
    ensures Lookup(Str(s), q).Err?
    decreases |q|
  {
    if q[0].Pos? && q[0].index < |s| {
      LookupThroughStrFails([s[q[0].index]], q[1..]);
    }
  }

  /** Assigning to a mapping key that can be read always succeeds. */
  lemma {:induction false} AssignWhereFound(v: Value, p: seq<Key>, x: Value)
    requires p != [] && p[|p| - 1].Name? && Lookup(v, p).Ok?
    ensures Assign(v, p, x).Ok?
    decreases |p|
  {
    if |p| > 1 {
      var child := Subscript(v, p[0]).value;
      AssignWhereFound(child, p[1..], x);
      if v.Str? {
        LookupThroughStrFails(v.s, p);
      }
    }
  }
}
