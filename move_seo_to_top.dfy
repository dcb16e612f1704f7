/**
 * The reordering of a configuration's top-level keys. The known sections (domain, seo, template,
 * controls, features, contentBoxes, ads, emailCapture) come first, in that order, when their
 * values are truthy. Every other key follows in its original order.
 */
module MoveSeoToTop {
  import opened Wrappers
  import opened Seqs
  import opened Json
  import opened JsNumbers
  import opened ConfigLoader
  import opened ConfigScripts

  /** The sections moved to the front, in their new order. */
  const PriorityKeys: seq<string> :=
    ["domain", "seo", "template", "controls", "features", "contentBoxes", "ads", "emailCapture"]

  /** `Object.keys(v)` with the values `v[key]`: an object's own members, the indices of an array
   *  or a string, and nothing for a number or a boolean. */
  function OwnEntries(v: Json): Fields
    requires v != JNull
  {
    match v
    case JObj(fs) => fs
    case JArr(items) => IndexEntries(items, 0)
    case JStr(s) => IndexEntries(seq(|s|, i requires 0 <= i < |s| => JStr([s[i]])), 0)
    case _ => []
  }

  /** The elements of a list keyed by their indices, counted from `start`. */
  function IndexEntries(items: seq<Json>, start: nat): (fs: Fields)
    ensures |fs| == |items|
    ensures forall k :: k in Keys(fs) ==> exists n: nat :: n >= start && k == NatToString(n)
    decreases |items|
  {
    if |items| == 0 then []
    else
      var rest := IndexEntries(items[1..], start + 1);
      KeysCons([(NatToString(start), items[0])] + rest);
      [(NatToString(start), items[0])] + rest
  }

  /** Indices are distinct keys. */
  lemma {:induction false} IndexEntriesUnique(items: seq<Json>, start: nat)
    ensures UniqueKeys(IndexEntries(items, start))
    decreases |items|
  {
    if |items| > 0 {
      var fs := IndexEntries(items, start);
      IndexEntriesUnique(items[1..], start + 1);
      assert fs[1..] == IndexEntries(items[1..], start + 1);
      if NatToString(start) in Keys(fs[1..]) {
        var n: nat :| n >= start + 1 && NatToString(start) == NatToString(n);
        ParseDecimalOfToString(start);
        ParseDecimalOfToString(n);
        assert false;
      }
    }
  }

  /** The entries of the known sections with truthy values, in the order of `keys`, each with its
   *  value: the chain of `if (config.k) orderedConfig.k = config.k`. */
  function FrontOf(fs: Fields, keys: seq<string>): Fields
    decreases |keys|
  {
    if |keys| == 0 then []
    else
      var k := keys[|keys| - 1];
      FrontOf(fs, keys[..|keys| - 1]) + (if TruthyOpt(Lookup(fs, k)) then [(k, Lookup(fs, k).value)] else [])
  }

  /** The entries whose keys the front does not hold, in their order. */
  function RestOf(front: Fields, entries: Fields): Fields
    decreases |entries|
  {
    if |entries| == 0 then []
    else
      var e := entries[|entries| - 1];
      RestOf(front, entries[..|entries| - 1]) + (if e.0 in Keys(front) then [] else [e])
  }

  /** The reordered configuration: the truthy known sections in their fixed order, then the other
   *  keys in their input order; a known section with a falsy value stays where it was. */
  function Reordered(fs: Fields): (r: Fields)
    ensures var front := TruthyKeys(fs, PriorityKeys);
      Keys(r) == front + Without(Keys(fs), front)
  {
    var f := FrontOf(fs, PriorityKeys);
    FrontOfFacts(fs, PriorityKeys);
    RestOfFacts(f, fs);
    KeysAppend(f, RestOf(f, fs));
    f + RestOf(f, fs)
  }

  /** The keys of `keys` whose values are truthy, in order. */
  function TruthyKeys(fs: Fields, keys: seq<string>): seq<string>
    decreases |keys|
  {
    if |keys| == 0 then []
    else
      var k := keys[|keys| - 1];
      TruthyKeys(fs, keys[..|keys| - 1]) + (if TruthyOpt(Lookup(fs, k)) then [k] else [])
  }

  /** The keys of `ks` that are not in `drop`, in order. */
  function Without(ks: seq<string>, drop: seq<string>): seq<string>
    decreases |ks|
  {
    if |ks| == 0 then []
    else Without(ks[..|ks| - 1], drop) + (if ks[|ks| - 1] in drop then [] else [ks[|ks| - 1]])
  }

  /** The front holds exactly the truthy known sections, each with its value. */
  lemma {:induction false} FrontOfFacts(fs: Fields, keys: seq<string>)
    ensures Keys(FrontOf(fs, keys)) == TruthyKeys(fs, keys)
    ensures forall k :: k in Keys(FrontOf(fs, keys)) <==> k in keys && TruthyOpt(Lookup(fs, k))
    ensures forall k :: k in Keys(FrontOf(fs, keys)) ==> Lookup(FrontOf(fs, keys), k) == Lookup(fs, k)
    decreases |keys|
  {
    if |keys| > 0 {
      var init := keys[..|keys| - 1];
      var k := keys[|keys| - 1];
      FrontOfFacts(fs, init);
      var a := FrontOf(fs, init);
      var b: Fields := if TruthyOpt(Lookup(fs, k)) then [(k, Lookup(fs, k).value)] else [];
      KeysAppend(a, b);
      assert forall x :: x in keys <==> x in init || x == k;
      forall x | x in Keys(a + b) ensures Lookup(a + b, x) == Lookup(fs, x) {
        LookupAppend(a, b, x);
      }
    }
  }

  /** The front of a configuration depends only on the values its keys hold. */
  lemma {:induction false} FrontOfSameValues(a: Fields, b: Fields, keys: seq<string>)
    requires forall k :: Lookup(a, k) == Lookup(b, k)
    ensures FrontOf(a, keys) == FrontOf(b, keys)
    decreases |keys|
  {
    if |keys| > 0 {
      FrontOfSameValues(a, b, keys[..|keys| - 1]);
    }
  }

  /** The rest holds the keys the front does not, with their values. */
  lemma {:induction false} RestOfFacts(front: Fields, entries: Fields)
    ensures Keys(RestOf(front, entries)) == Without(Keys(entries), Keys(front))
    ensures forall k :: k !in Keys(front) ==> Lookup(RestOf(front, entries), k) == Lookup(entries, k)
    ensures forall k :: k in Keys(RestOf(front, entries)) ==> k !in Keys(front)
    decreases |entries|
  {
    if |entries| > 0 {
      var init := entries[..|entries| - 1];
      var e := entries[|entries| - 1];
      RestOfFacts(front, init);
      var r := RestOf(front, init);
      var b: Fields := if e.0 in Keys(front) then [] else [e];
      KeysAppend(r, b);
      KeysAppend(init, [e]);
      assert entries == init + [e];
      assert Keys(entries)[..|entries| - 1] == Keys(init);
      forall k | k !in Keys(front) ensures Lookup(r + b, k) == Lookup(entries, k) {
        LookupAppend(r, b, k);
        LookupAppend(init, [e], k);
      }
    }
  }

  /** Dropping the keys of the front from the front leaves nothing, and from the rest nothing. */
  lemma {:induction false} RestOfAppend(front: Fields, a: Fields, b: Fields)
    ensures RestOf(front, a + b) == RestOf(front, a) + RestOf(front, b)
    decreases |b|
  {
    if |b| > 0 {
      assert (a + b)[..|a + b| - 1] == a + b[..|b| - 1];
      RestOfAppend(front, a, b[..|b| - 1]);
    } else {
      assert a + b == a;
    }
  }

  lemma {:induction false} RestOfOwnKeys(front: Fields, entries: Fields)
    requires forall k :: k in Keys(entries) ==> k in Keys(front)
    ensures RestOf(front, entries) == []
    decreases |entries|
  {
    if |entries| > 0 {
      assert entries[|entries| - 1].0 in Keys(entries);
      RestOfOwnKeys(front, entries[..|entries| - 1]);
    }
  }

  lemma {:induction false} RestOfOtherKeys(front: Fields, entries: Fields)
    requires forall k :: k in Keys(entries) ==> k !in Keys(front)
    ensures RestOf(front, entries) == entries
    decreases |entries|
  {
    if |entries| > 0 {
      assert entries[|entries| - 1].0 in Keys(entries);
      RestOfOtherKeys(front, entries[..|entries| - 1]);
    }
  }

  /** Every key keeps its value, and no key is added or lost. */
  lemma ReorderedValues(fs: Fields, k: string)
    ensures Lookup(Reordered(fs), k) == Lookup(fs, k)
    ensures k in Keys(Reordered(fs)) <==> k in Keys(fs)
  {
    var f := FrontOf(fs, PriorityKeys);
    FrontOfFacts(fs, PriorityKeys);
    RestOfFacts(f, fs);
    LookupAppend(f, RestOf(f, fs), k);
  }

  /** Reordering twice gives what reordering once gives. */
  lemma ReorderedIdempotent(fs: Fields)
    ensures Reordered(Reordered(fs)) == Reordered(fs)
  {
    var f := FrontOf(fs, PriorityKeys);
    var r := RestOf(f, fs);
    var out := f + r;
    SameValuesAfterReorder(fs);
    FrontOfSameValues(out, fs, PriorityKeys);
    assert FrontOf(out, PriorityKeys) == f;
    RestOfAppend(f, f, r);
    RestOfOwnKeys(f, f);
    RestOfFacts(f, fs);
    RestOfOtherKeys(f, r);
    assert RestOf(f, out) == r;
  }

  lemma SameValuesAfterReorder(fs: Fields)
    ensures forall k :: Lookup(Reordered(fs), k) == Lookup(fs, k)
  {
    forall k ensures Lookup(Reordered(fs), k) == Lookup(fs, k) {
      ReorderedValues(fs, k);
    }
  }

  /** One `if (config.k) orderedConfig.k = config.k` step, for a key not placed before. */
  lemma FrontStep(fs: Fields, keys: seq<string>, k: string)
    requires k !in keys
    ensures FrontOf(fs, keys + [k]) ==
      if TruthyOpt(Lookup(fs, k)) then Put(FrontOf(fs, keys), k, Lookup(fs, k).value)
      else FrontOf(fs, keys)
  {
    assert (keys + [k])[..|keys|] == keys;
    if TruthyOpt(Lookup(fs, k)) {
      FrontOfFacts(fs, keys);
      PutAbsent(FrontOf(fs, keys), k, Lookup(fs, k).value);
    }
  }

  /** Every known section is placed once. */
  lemma NewPriorityKey(i: nat)
    requires i < |PriorityKeys|
    ensures PriorityKeys[i] !in PriorityKeys[..i]
  {
    assert Distinct(PriorityKeys);
  }

  /** The sections placed first all hold truthy values. */
  lemma FrontTruthy(fs: Fields)
    ensures var front := FrontOf(fs, PriorityKeys);
      forall k :: k in Keys(front) ==> TruthyOpt(Lookup(front, k))
  {
    FrontOfFacts(fs, PriorityKeys);
  }

  /** One step of the `Object.keys` loop, for a key not seen before: a key already placed with a
   *  truthy value is passed over, any other key is appended with its value. */
  lemma RestStep(front: Fields, entries: Fields, e: (string, Json))
    requires forall k :: k in Keys(front) ==> TruthyOpt(Lookup(front, k))
    requires e.0 !in Keys(entries)
    ensures var out := front + RestOf(front, entries);
      front + RestOf(front, entries + [e]) ==
        if !TruthyOpt(Lookup(out, e.0)) then Put(out, e.0, e.1) else out
  {
    var rest := RestOf(front, entries);
    assert (entries + [e])[..|entries|] == entries;
    RestOfFacts(front, entries);
    LookupAppend(front, rest, e.0);
    if !TruthyOpt(Lookup(front + rest, e.0)) {
      KeysAppend(front, rest);
      PutAbsent(front + rest, e.0, e.1);
    }
  }

  /** The known sections first, then `Object.keys(config).forEach(key => { if
   *  (!orderedConfig[key]) orderedConfig[key] = config[key] })`. A parsed object never repeats a key. */
  method Reorder(fs: Fields) returns (out: Fields)
    requires UniqueKeys(fs)
    ensures out == Reordered(fs)
  {
    var front := PlaceFront(fs);
    FrontTruthy(fs);
    out := AppendRest(fs, front);
  }

  /** The `if (config.k) orderedConfig.k = config.k` steps, one per known section in order. */
  method PlaceFront(fs: Fields) returns (out: Fields)
    ensures out == FrontOf(fs, PriorityKeys)
  {
    out := [];
    for i := 0 to |PriorityKeys|
      invariant out == FrontOf(fs, PriorityKeys[..i])
    {
      var k := PriorityKeys[i];
      assert PriorityKeys[..i + 1] == PriorityKeys[..i] + [k];
      NewPriorityKey(i);
      FrontStep(fs, PriorityKeys[..i], k);
      if TruthyOpt(Lookup(fs, k)) {
        out := Put(out, k, Lookup(fs, k).value);
      }
    }
    assert PriorityKeys[..|PriorityKeys|] == PriorityKeys;
  }

  /** The `Object.keys` loop: every key not yet placed with a truthy value is appended. */
  method AppendRest(fs: Fields, front: Fields) returns (out: Fields)
    requires UniqueKeys(fs)
    requires forall k :: k in Keys(front) ==> TruthyOpt(Lookup(front, k))
    ensures out == front + RestOf(front, fs)
  {
    out := front;
    assert RestOf(front, fs[..0]) == [];
    for i := 0 to |fs|
      invariant out == front + RestOf(front, fs[..i])
    {
      var k := fs[i].0;
      assert fs[..i + 1] == fs[..i] + [fs[i]];
      UniqueKeysAt(fs, i);
      LookupAt(fs, k, i);
      RestStep(front, fs[..i], fs[i]);
      if !TruthyOpt(Lookup(out, k)) {
        out := Put(out, k, Lookup(fs, k).value);
      }
    }
    assert fs[..|fs|] == fs;
  }

  /** In an object without repeated keys, a key does not occur before its own position. */
  lemma {:induction false} UniqueKeysAt(fs: Fields, i: nat)
    requires UniqueKeys(fs) && i < |fs|
    ensures fs[i].0 !in Keys(fs[..i])
    decreases i
  {
    if i > 0 {
      UniqueKeysAt(fs[1..], i - 1);
      assert fs[1..][..i - 1] == fs[1..i];
      assert Keys(fs[..i]) == [fs[0].0] + Keys(fs[1..i]);
      assert fs[i].0 in Keys(fs[1..]);
    }
  }

  /** One configuration: reading `config.domain` of `null` throws; any other value is rewritten
   *  as the reordered object of its own keys. */
  method ReorderConfig(config: Json) returns (r: Result<Json>)
    requires config.JObj? ==> UniqueKeys(config.fields)
    ensures r.Failure? <==> config == JNull
    ensures r.Success? ==> r.value == JObj(Reordered(OwnEntries(config)))
  {
    if config == JNull {
      return Failure("TypeError");
    }
    var entries := OwnEntries(config);
    if config.JArr? {
      IndexEntriesUnique(config.items, 0);
    } else if config.JStr? {
      IndexEntriesUnique(seq(|config.s|, i requires 0 <= i < |config.s| => JStr([config.s[i]])), 0);
    }
    var fs := Reorder(entries);
    return Success(JObj(fs));
  }

  /** What `MoveSeoFile` yields for one file: the outcome and, when the file is written, the new configuration. */
  ghost predicate Describes(f: ConfigFile, o: FileOutcome) {
    && (o.Written? <==> f.parsed.Some? && f.parsed.value != JNull)
    && (o.Written? ==> o.config == JObj(Reordered(OwnEntries(f.parsed.value))))
    && (!o.Written? ==> o.Failed?)
  }

  /** One file of the run: every configuration that parses to something other than `null` is
   *  written back reordered, and `updated` counts it. */
  method MoveSeoFile(f: ConfigFile) returns (o: FileOutcome)
    requires f.parsed.Some? && f.parsed.value.JObj? ==> UniqueKeys(f.parsed.value.fields)
    ensures Describes(f, o)
  {
    if f.parsed.None? {
      return Failed("SyntaxError");
    }
    var r := ReorderConfig(f.parsed.value);
    match r
    case Failure(e) => return Failed(e);
    case Success(c) => return Written(c);
  }
}
