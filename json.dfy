/**
 * Parsed JSON values and the JavaScript operations the program applies to them: truthiness,
 * property reads (`.`, `?.`), assignment and `delete`, `||`, `??`, and the string a template
 * literal makes of a value. Objects keep their keys in insertion order, as JavaScript objects do
 * for non-numeric keys; `undefined` is `None`.
 */
module Json {
  import opened Wrappers
  import opened Strings
  import opened Seqs
  import opened JsNumbers

  datatype Json =
    | JNull
    | JBool(b: bool)
    | JNum(n: int)
    | JStr(s: string)
    | JArr(items: seq<Json>)
    | JObj(fields: seq<(string, Json)>)

  type Fields = seq<(string, Json)>

  /** JavaScript truthiness of a JSON value. */
  predicate Truthy(v: Json) {
    match v
    case JNull => false
    case JBool(b) => b
    case JNum(n) => n != 0
    case JStr(s) => s != ""
    case _ => true
  }

  /** Truthiness of a possibly undefined value. */
  predicate TruthyOpt(o: Option<Json>) {
    o.Some? && Truthy(o.value)
  }

  /** `null` or `undefined`. */
  predicate Nullish(o: Option<Json>) {
    o.None? || o.value == JNull
  }

  /** The keys of an object, in order. */
  function Keys(fs: Fields): (ks: seq<string>)
    ensures |ks| == |fs| && forall i :: 0 <= i < |fs| ==> ks[i] == fs[i].0
  {
    seq(|fs|, i requires 0 <= i < |fs| => fs[i].0)
  }

  /** The keys of a non-empty object: its first key, then the keys of the rest. */
  lemma KeysCons(fs: Fields)
    requires |fs| > 0
    ensures Keys(fs) == [fs[0].0] + Keys(fs[1..])
  {
  }

  /** No key occurs twice, as in every object `JSON.parse` builds. */
  predicate UniqueKeys(fs: Fields)
    decreases |fs|
  {
    |fs| == 0 || (fs[0].0 !in Keys(fs[1..]) && UniqueKeys(fs[1..]))
  }

  /** The value stored under `k`, if any. */
  function Lookup(fs: Fields, k: string): (r: Option<Json>)
    ensures r.Some? <==> k in Keys(fs)
    decreases |fs|
  {
    if |fs| == 0 then None
    else if fs[0].0 == k then Some(fs[0].1)
    else
      assert Keys(fs) == [fs[0].0] + Keys(fs[1..]);
      Lookup(fs[1..], k)
  }

  /** A value read from an object is one of its members. */
  lemma {:induction false} LookupIn(fs: Fields, k: string)
    ensures Lookup(fs, k).Some? ==> (k, Lookup(fs, k).value) in fs
    decreases |fs|
  {
    if |fs| > 0 && fs[0].0 != k {
      LookupIn(fs[1..], k);
    }
  }

  /** The value stored under `k` is that of its first occurrence. */
  lemma {:induction false} LookupAt(fs: Fields, k: string, i: nat)
    requires i < |fs| && fs[i].0 == k && forall j :: 0 <= j < i ==> fs[j].0 != k
    ensures Lookup(fs, k) == Some(fs[i].1)
    decreases i
  {
    if i > 0 {
      LookupAt(fs[1..], k, i - 1);
    }
  }

  /** The keys of a concatenation. */
  lemma KeysAppend(a: Fields, b: Fields)
    ensures Keys(a + b) == Keys(a) + Keys(b)
  {
  }

  /** Reading a key of a concatenation reads the first part that holds it. */
  lemma {:induction false} LookupAppend(a: Fields, b: Fields, k: string)
    ensures Lookup(a + b, k) == if k in Keys(a) then Lookup(a, k) else Lookup(b, k)
    decreases |a|
  {
    if |a| > 0 {
      assert (a + b)[1..] == a[1..] + b;
      KeysCons(a);
      LookupAppend(a[1..], b, k);
    } else {
      assert a + b == b;
    }
  }

  /** `o[k] = v`: an existing key keeps its place and takes the new value; a new key goes last. */
  function Put(fs: Fields, k: string, v: Json): (r: Fields)
    decreases |fs|
  {
    if |fs| == 0 then [(k, v)]
    else if fs[0].0 == k then [(k, v)] + fs[1..]
    else [fs[0]] + Put(fs[1..], k, v)
  }

  /** `delete o[k]` */
  function Remove(fs: Fields, k: string): (r: Fields)
    decreases |fs|
  {
    if |fs| == 0 then []
    else if fs[0].0 == k then Remove(fs[1..], k)
    else [fs[0]] + Remove(fs[1..], k)
  }

  /** Assigning a key makes it hold the value and leaves every other key's value alone. */
  lemma {:induction false} LookupPut(fs: Fields, k: string, v: Json, k': string)
    ensures Lookup(Put(fs, k, v), k') == if k' == k then Some(v) else Lookup(fs, k')
    decreases |fs|
  {
    if |fs| > 0 && fs[0].0 != k {
      LookupPut(fs[1..], k, v, k');
    }
  }

  /** Assigning keeps the key order and appends a new key. */
  lemma {:induction false} KeysPut(fs: Fields, k: string, v: Json)
    ensures Keys(Put(fs, k, v)) == if k in Keys(fs) then Keys(fs) else Keys(fs) + [k]
    decreases |fs|
  {
    if |fs| > 0 {
      KeysCons(fs);
      var r := Put(fs, k, v);
      KeysCons(r);
      if fs[0].0 != k {
        KeysPut(fs[1..], k, v);
        assert r[1..] == Put(fs[1..], k, v);
        assert k in Keys(fs) <==> k in Keys(fs[1..]);
      } else {
        assert r[1..] == fs[1..];
      }
    }
  }

  /** Assigning a new key appends it. */
  lemma {:induction false} PutAbsent(fs: Fields, k: string, v: Json)
    requires k !in Keys(fs)
    ensures Put(fs, k, v) == fs + [(k, v)]
    decreases |fs|
  {
    if |fs| > 0 {
      KeysCons(fs);
      PutAbsent(fs[1..], k, v);
      assert [fs[0]] + (fs[1..] + [(k, v)]) == fs + [(k, v)];
    }
  }

  /** Assigning keeps keys unique. */
  lemma {:induction false} PutUnique(fs: Fields, k: string, v: Json)
    requires UniqueKeys(fs)
    ensures UniqueKeys(Put(fs, k, v))
    decreases |fs|
  {
    var r := Put(fs, k, v);
    if |fs| > 0 {
      if fs[0].0 == k {
        assert r[1..] == fs[1..];
      } else {
        PutUnique(fs[1..], k, v);
        KeysPut(fs[1..], k, v);
        assert r[1..] == Put(fs[1..], k, v);
      }
    }
  }

  /** Assigning the value a key already holds changes nothing. */
  lemma {:induction false} PutSame(fs: Fields, k: string, v: Json)
    requires Lookup(fs, k) == Some(v)
    ensures Put(fs, k, v) == fs
    decreases |fs|
  {
    if fs[0].0 != k {
      PutSame(fs[1..], k, v);
    }
  }

  /** Assigning twice is assigning once. */
  lemma {:induction false} PutPut(fs: Fields, k: string, v: Json, w: Json)
    ensures Put(Put(fs, k, v), k, w) == Put(fs, k, w)
    decreases |fs|
  {
    if |fs| > 0 && fs[0].0 != k {
      PutPut(fs[1..], k, v, w);
    }
  }

  /** After `delete`, the key is gone and every other key keeps its value. */
  lemma {:induction false} LookupRemove(fs: Fields, k: string, k': string)
    ensures Lookup(Remove(fs, k), k') == if k' == k then None else Lookup(fs, k')
    decreases |fs|
  {
    if |fs| > 0 {
      LookupRemove(fs[1..], k, k');
    }
  }

  /** `delete` of an absent key changes nothing. */
  lemma {:induction false} RemoveAbsent(fs: Fields, k: string)
    requires k !in Keys(fs)
    ensures Remove(fs, k) == fs
    decreases |fs|
  {
    if |fs| > 0 {
      assert Keys(fs) == [fs[0].0] + Keys(fs[1..]);
      RemoveAbsent(fs[1..], k);
    }
  }

  /** The keys after `delete` are the other keys. */
  lemma {:induction false} KeysRemove(fs: Fields, k: string)
    ensures forall x :: x in Keys(Remove(fs, k)) <==> x in Keys(fs) && x != k
    ensures |Remove(fs, k)| <= |fs|
    decreases |fs|
  {
    if |fs| > 0 {
      KeysRemove(fs[1..], k);
      KeysCons(fs);
      var r := Remove(fs, k);
      if fs[0].0 != k {
        KeysCons(r);
        assert r[1..] == Remove(fs[1..], k);
      }
    }
  }

  /** `v.k` on a value that is not `null` or `undefined`: objects have their own keys; other values
   *  have none of the keys the program reads. */
  function Prop(v: Json, k: string): (r: Option<Json>)
    ensures r.Some? ==> v.JObj?
  {
    if v.JObj? then Lookup(v.fields, k) else None
  }

  /** `o?.k` */
  function OptProp(o: Option<Json>, k: string): (r: Option<Json>)
    ensures Nullish(o) ==> r.None?
    ensures o.Some? && o.value.JObj? ==> r == Lookup(o.value.fields, k)
  {
    if Nullish(o) then None else Prop(o.value, k)
  }

  /** `o.k`, which throws a TypeError on `null` and `undefined`. */
  function GetProp(o: Option<Json>, k: string): (r: Result<Option<Json>>)
    ensures r.Failure? <==> Nullish(o)
    ensures r.Success? ==> r.value == OptProp(o, k)
  {
    if Nullish(o) then Failure("TypeError") else Success(Prop(o.value, k))
  }

  /** `a || b` */
  function Or(a: Option<Json>, b: Option<Json>): (r: Option<Json>)
    ensures TruthyOpt(a) ==> r == a
    ensures !TruthyOpt(a) ==> r == b
  {
    if TruthyOpt(a) then a else b
  }

  /** `a ?? b` */
  function Coalesce(a: Option<Json>, b: Option<Json>): (r: Option<Json>)
    ensures Nullish(a) ==> r == b
    ensures !Nullish(a) ==> r == a
  {
    if Nullish(a) then b else a
  }

  /** An object literal as `JSON.stringify` writes it: members whose value is `undefined` are left out. */
  function Obj(members: seq<(string, Option<Json>)>): (r: Json)
    ensures r.JObj?
  {
    JObj(Present(members))
  }

  function Present(members: seq<(string, Option<Json>)>): (fs: Fields)
    ensures forall k :: k in Keys(fs) ==> exists i :: 0 <= i < |members| && members[i].0 == k && members[i].1.Some?
    decreases |members|
  {
    if |members| == 0 then []
    else
      var rest := Present(members[1..]);
      assert forall k :: k in Keys(rest) ==> exists i :: 0 <= i < |members| && members[i].0 == k && members[i].1.Some? by {
        forall k | k in Keys(rest) ensures exists i :: 0 <= i < |members| && members[i].0 == k && members[i].1.Some? {
          var i :| 0 <= i < |members[1..]| && members[1..][i].0 == k && members[1..][i].1.Some?;
          assert members[i + 1] == members[1..][i];
        }
      }
      if members[0].1.Some? then
        assert Keys([(members[0].0, members[0].1.value)] + rest) == [members[0].0] + Keys(rest);
        [(members[0].0, members[0].1.value)] + rest
      else rest
  }

  /** In an object literal whose keys are distinct, each key holds its member's value, and a
   *  member whose value is `undefined` leaves its key out. */
  lemma {:induction false} LookupPresent(members: seq<(string, Option<Json>)>, i: nat)
    requires i < |members|
    requires forall j :: 0 <= j < |members| && j != i ==> members[j].0 != members[i].0
    ensures Lookup(Present(members), members[i].0) == members[i].1
    decreases |members|
  {
    if i > 0 {
      forall j | 0 <= j < |members[1..]| && j != i - 1 ensures members[1..][j].0 != members[1..][i - 1].0 {
        assert members[1..][j] == members[j + 1];
      }
      LookupPresent(members[1..], i - 1);
    }
  }

  /** Replacing one member of an object: the key then holds the new value and the other keys keep
   *  theirs. */
  lemma PropPut(target: Json, k: string, v: Json)
    requires target.JObj?
    ensures Prop(JObj(Put(target.fields, k, v)), k) == Some(v)
    ensures forall k' :: k' != k ==> Prop(JObj(Put(target.fields, k, v)), k') == Prop(target, k')
  {
    forall k' ensures Lookup(Put(target.fields, k, v), k') == if k' == k then Some(v) else Lookup(target.fields, k') {
      LookupPut(target.fields, k, v, k');
    }
  }

  /**
   * `target.k = v`. Assigning on `null` or `undefined` throws. On an array the property is not an
   * index and `JSON.stringify` never writes it, so the value is unchanged. On a string, number or
   * boolean the assignment is ignored in a sloppy-mode script and throws in strict-mode (module) code.
   */
  function Assign(target: Option<Json>, k: string, v: Json, strict: bool): (r: Result<Json>)
    ensures r.Failure? <==> Nullish(target) || (strict && !target.value.JObj? && !target.value.JArr?)
    ensures r.Success? && target.value.JObj? ==> r.value == JObj(Put(target.value.fields, k, v))
    ensures r.Success? && !target.value.JObj? ==> r.value == target.value
  {
    if Nullish(target) then Failure("TypeError")
    else if target.value.JObj? then Success(JObj(Put(target.value.fields, k, v)))
    else if target.value.JArr? || !strict then Success(target.value)
    else Failure("TypeError")
  }

  /** `target.p[0]. ... .p[n-1] = v`: every property before the last must be read from a value
   *  that is not `null` or `undefined`; the assignment lands in the innermost value and the
   *  objects around it are rebuilt with that value in its place. */
  function AssignAt(target: Json, path: seq<string>, v: Json, strict: bool): (r: Result<Json>)
    requires |path| >= 1
    ensures r.Success? && !target.JObj? ==> r.value == target
    decreases |path|
  {
    if |path| == 1 then Assign(Some(target), path[0], v, strict)
    else if target == JNull then Failure("TypeError")
    else
      var child := Prop(target, path[0]);
      if Nullish(child) then Failure("TypeError")
      else match AssignAt(child.value, path[1..], v, strict)
        case Failure(e) => Failure(e)
        case Success(c) => if child.value.JObj? then Success(JObj(Put(target.fields, path[0], c))) else Success(target)
  }

  /** `target?.p[0]?. ... ?.p[n-1]` */
  function ValueAt(target: Option<Json>, path: seq<string>): Option<Json>
    decreases |path|
  {
    if |path| == 0 then target else ValueAt(OptProp(target, path[0]), path[1..])
  }

  /** Reading along a path in two stretches is reading along the whole path. */
  lemma {:induction false} ValueAtAppend(o: Option<Json>, p: seq<string>, q: seq<string>)
    ensures ValueAt(o, p + q) == ValueAt(ValueAt(o, p), q)
    decreases |p|
  {
    if |p| > 0 {
      assert (p + q)[1..] == p[1..] + q;
      ValueAtAppend(OptProp(o, p[0]), p[1..], q);
    } else {
      assert p + q == q;
    }
  }

  /** `o.p[0]. ... .p[n-1]`, which throws once a value read from is `null` or `undefined`. */
  function GetAt(o: Option<Json>, path: seq<string>): (r: Result<Option<Json>>)
    ensures r.Success? ==> r.value == ValueAt(o, path)
    ensures |path| > 0 && Nullish(o) ==> r.Failure?
    decreases |path|
  {
    if |path| == 0 then Success(o)
    else match GetProp(o, path[0])
      case Failure(e) => Failure(e)
      case Success(child) => GetAt(child, path[1..])
  }

  /** Every value along the path, up to the one assigned in, is an object. */
  predicate ObjectsAlong(target: Json, path: seq<string>)
    requires |path| >= 1
    decreases |path|
  {
    target.JObj? && (|path| == 1 || (Prop(target, path[0]).Some? && ObjectsAlong(Prop(target, path[0]).value, path[1..])))
  }

  /** Through objects, a nested assignment succeeds and the path then holds the value. */
  lemma {:induction false} AssignAtObjects(target: Json, path: seq<string>, v: Json, strict: bool)
    requires |path| >= 1 && ObjectsAlong(target, path)
    ensures AssignAt(target, path, v, strict).Success?
    ensures ValueAt(Some(AssignAt(target, path, v, strict).value), path) == Some(v)
    ensures AssignAt(target, path, v, strict).value.JObj?
    decreases |path|
  {
    if |path| == 1 {
      LookupPut(target.fields, path[0], v, path[0]);
    } else {
      var child := Prop(target, path[0]).value;
      AssignAtObjects(child, path[1..], v, strict);
      LookupPut(target.fields, path[0], AssignAt(child, path[1..], v, strict).value, path[0]);
    }
  }

  /** A nested assignment leaves every other top-level key alone, and adds no key but the first
   *  of the path. */
  lemma AssignAtOtherKeys(target: Json, path: seq<string>, v: Json, strict: bool, k: string)
    requires |path| >= 1 && target.JObj? && AssignAt(target, path, v, strict).Success?
    requires k != path[0]
    ensures Prop(AssignAt(target, path, v, strict).value, k) == Prop(target, k)
  {
    if |path| == 1 {
      LookupPut(target.fields, path[0], v, k);
    } else if Prop(target, path[0]).value.JObj? {
      LookupPut(target.fields, path[0], AssignAt(Prop(target, path[0]).value, path[1..], v, strict).value, k);
    }
  }

  /** `delete target.k` on a value that is not `null` or `undefined`. */
  function Delete(target: Json, k: string): (r: Json)
    ensures target.JObj? ==> r == JObj(Remove(target.fields, k))
    ensures !target.JObj? ==> r == target
  {
    if target.JObj? then JObj(Remove(target.fields, k)) else target
  }

  /** The string a template literal or `String(v)` makes of a value. */
  function ToJsString(o: Option<Json>): string {
    match o
    case None => "undefined"
    case Some(v) => StringOf(v)
  }

  function StringOf(v: Json): (s: string)
    ensures v.JStr? ==> s == v.s
    decreases v, 1
  {
    match v
    case JNull => "null"
    case JBool(b) => if b then "true" else "false"
    case JNum(n) => IntToString(n)
    case JStr(s) => s
    case JArr(items) => Join(ElementStrings(v, items), ",")
    case JObj(_) => "[object Object]"
  }

  /** The strings `Array.prototype.join` makes of the elements: `null` becomes the empty string. */
  function ElementStrings(whole: Json, items: seq<Json>): (r: seq<string>)
    requires forall i :: 0 <= i < |items| ==> items[i] < whole
    ensures |r| == |items|
    decreases whole, 0, |items|
  {
    if |items| == 0 then []
    else [if items[0] == JNull then "" else StringOf(items[0])] + ElementStrings(whole, items[1..])
  }
}
