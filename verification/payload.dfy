/** Payloads pushed to the tag manager's data layer.

    The tracker builds every payload as a PHP array literal with string keys, and such an
    array keeps its keys in insertion order. A payload is therefore modelled as a JSON-like
    value whose objects are ordered lists of fields. `ArrayMerge` models PHP's
    `array_merge` on string-keyed arrays, and `At` reads a value at a path of keys. */
module Payload {
  import opened Wrappers

  datatype Value =
    | Null
    | Str(s: string)
    | Int(i: int)
    | Num(r: real)
    | List(elems: seq<Value>)
    | Obj(fields: seq<Field>)

  datatype Field = Field(key: string, val: Value)

  /** The keys of an object, in insertion order. */
  function Keys(fields: seq<Field>): seq<string>
  {
    seq(|fields|, i requires 0 <= i < |fields| => fields[i].key)
  }

  lemma KeysAppend(a: seq<Field>, b: seq<Field>)
    ensures Keys(a + b) == Keys(a) + Keys(b)
  {
  }

  predicate HasKey(fields: seq<Field>, k: string)
  {
    exists i :: 0 <= i < |fields| && fields[i].key == k
  }

  /** A PHP array never holds the same key twice. */
  predicate WellKeyed(fields: seq<Field>)
  {
    forall i, j :: 0 <= i < j < |fields| ==> fields[i].key != fields[j].key
  }

  /** `$array[$k]`, or None when the key is absent. */
  function Get(fields: seq<Field>, k: string): (r: Option<Value>)
    ensures r.Some? <==> HasKey(fields, k)
    ensures r.Some? ==> Field(k, r.value) in fields
  {
    if |fields| == 0 then None
    else if fields[0].key == k then Some(fields[0].val)
    else
      assert forall i :: 0 < i < |fields| ==> fields[i] == fields[1..][i - 1];
      Get(fields[1..], k)
  }

  /** In a well-keyed object every field is the one its key finds. */
  lemma GetWellKeyed(fields: seq<Field>, i: nat)
    requires WellKeyed(fields)
    requires i < |fields|
    ensures Get(fields, fields[i].key) == Some(fields[i].val)
  {
  }

  /** Looking a key up in a concatenation finds it in the left part first. */
  lemma {:induction false} GetAppend(a: seq<Field>, b: seq<Field>, k: string)
    ensures Get(a + b, k) == if HasKey(a, k) then Get(a, k) else Get(b, k)
  {
    if |a| == 0 {
      assert a + b == b;
    } else {
      assert (a + b)[1..] == a[1..] + b;
      GetAppend(a[1..], b, k);
    }
  }

  /** `$array[$k] = $v`: overwrite in place when the key exists, append otherwise. */
  function Put(fields: seq<Field>, k: string, v: Value): seq<Field>
  {
    if |fields| == 0 then [Field(k, v)]
    else if fields[0].key == k then [Field(k, v)] + fields[1..]
    else [fields[0]] + Put(fields[1..], k, v)
  }

  /** After the assignment the key reads the new value and every other key reads as before. */
  lemma {:induction false} PutGet(fields: seq<Field>, k: string, v: Value, k': string)
    ensures Get(Put(fields, k, v), k') == if k' == k then Some(v) else Get(fields, k')
  {
    if |fields| > 0 && fields[0].key != k {
      PutGet(fields[1..], k, v, k');
    }
  }

  /** Assigning a key the array does not hold appends it at the end. */
  lemma {:induction false} PutFresh(fields: seq<Field>, k: string, v: Value)
    requires !HasKey(fields, k)
    ensures Put(fields, k, v) == fields + [Field(k, v)]
  {
    if |fields| > 0 {
      assert fields[0].key != k;
      HasKeyTail(fields);
      PutFresh(fields[1..], k, v);
    }
  }

  /** PHP's `array_merge($a, $b)` for string keys: the fields of `$a` in order, each key of
      `$b` overwriting the equal key of `$a` in place or else appended, in the order of `$b`. */
  function ArrayMerge(a: seq<Field>, b: seq<Field>): (r: seq<Field>)
    ensures forall k :: HasKey(r, k) <==> HasKey(a, k) || HasKey(b, k)
    decreases |b|
  {
    if |b| == 0 then a
    else
      PutHasKey(a, b[0].key, b[0].val);
      HasKeyTail(b);
      ArrayMerge(Put(a, b[0].key, b[0].val), b[1..])
  }

  lemma HasKeyTail(b: seq<Field>)
    requires |b| > 0
    ensures forall k :: HasKey(b, k) <==> b[0].key == k || HasKey(b[1..], k)
  {
  }

  /** Assigning a key adds that key and keeps every other. */
  lemma PutHasKey(fields: seq<Field>, k: string, v: Value)
    ensures forall k' :: HasKey(Put(fields, k, v), k') <==> HasKey(fields, k') || k' == k
  {
    forall k' ensures HasKey(Put(fields, k, v), k') <==> HasKey(fields, k') || k' == k {
      PutGet(fields, k, v, k');
      assert Get(Put(fields, k, v), k').Some? <==> HasKey(Put(fields, k, v), k');
      assert Get(fields, k').Some? <==> HasKey(fields, k');
    }
  }

  /** After `array_merge`, a key of `$b` reads its value in `$b`; any other key reads `$a`. */
  lemma {:induction false} ArrayMergeGet(a: seq<Field>, b: seq<Field>, k: string)
    requires WellKeyed(b)
    ensures Get(ArrayMerge(a, b), k) == if HasKey(b, k) then Get(b, k) else Get(a, k)
    decreases |b|
  {
    if |b| > 0 {
      var a' := Put(a, b[0].key, b[0].val);
      assert WellKeyed(b[1..]);
      ArrayMergeGet(a', b[1..], k);
      PutGet(a, b[0].key, b[0].val, k);
      HasKeyTail(b);
      if b[0].key == k {
        assert !HasKey(b[1..], k);
      }
    }
  }

  /** Appending one fresh field to `a` keeps it disjoint from the rest of a well-keyed `b`. */
  lemma DisjointStep(a: seq<Field>, b: seq<Field>)
    requires |b| > 0 && WellKeyed(b)
    requires forall k :: HasKey(a, k) ==> !HasKey(b, k)
    ensures forall k :: HasKey(a + [b[0]], k) ==> !HasKey(b[1..], k)
  {
    var a' := a + [b[0]];
    forall k | HasKey(a', k) ensures !HasKey(b[1..], k) {
      var i :| 0 <= i < |a'| && a'[i].key == k;
      HasKeyTail(b);
      if i < |a| {
        assert HasKey(a, k);
      }
    }
  }

  /** When no key is shared, `array_merge` is plain concatenation: the fields of `$b` follow
      those of `$a` in their own order. */
  lemma {:induction false} ArrayMergeDisjoint(a: seq<Field>, b: seq<Field>)
    requires WellKeyed(b)
    requires forall k :: HasKey(a, k) ==> !HasKey(b, k)
    ensures ArrayMerge(a, b) == a + b
    decreases |b|
  {
    if |b| > 0 {
      assert b[0].key == b[0].key && HasKey(b, b[0].key);
      var a' := a + [b[0]];
      PutFresh(a, b[0].key, b[0].val);
      assert ArrayMerge(a, b) == ArrayMerge(a', b[1..]);
      DisjointStep(a, b);
      assert WellKeyed(b[1..]);
      ArrayMergeDisjoint(a', b[1..]);
      assert a' + b[1..] == a + b;
    }
  }

  /** The value found by following `path` key by key through nested objects. */
  function At(v: Value, path: seq<string>): Option<Value>
    decreases |path|
  {
    if |path| == 0 then Some(v)
    else match v
      case Obj(fields) =>
        (match Get(fields, path[0])
         case Some(child) => At(child, path[1..])
         case None => None)
      case _ => None
  }

  /** Extending a path by one key reads that key of the object the path leads to. */
  lemma {:induction false} AtSnoc(v: Value, path: seq<string>, k: string)
    ensures At(v, path + [k])
      == match At(v, path)
         case Some(Obj(fields)) => Get(fields, k)
         case _ => None
    decreases |path|
  {
    if |path| > 0 {
      assert (path + [k])[1..] == path[1..] + [k];
      if v.Obj? && Get(v.fields, path[0]).Some? {
        AtSnoc(Get(v.fields, path[0]).value, path[1..], k);
      }
    }
  }

  /** The keys of the object at `path`, in order, if there is an object there. */
  function KeysAt(v: Value, path: seq<string>): Option<seq<string>>
  {
    match At(v, path)
    case Some(Obj(fields)) => Some(Keys(fields))
    case _ => None
  }

  predicate HasPath(v: Value, path: seq<string>)
  {
    At(v, path).Some?
  }
}
