/**
 * src/utils/object.ts: deepMerge, get and their specifications.
 *
 * Values are immutable here, so the in-place update of `target` is modelled as
 * returning the updated target; see README "Left out" for aliasing.
 */
module ObjectUtils {
  import opened Wrappers
  import opened JsValue
  import Strings

  // ---------------------------------------------------------------------------
  // Specification of deepMerge
  // ---------------------------------------------------------------------------

  /** The object deepMerge recurses into for a plain source value: the existing value, or a fresh {} when that is falsy. */
  function Slot(fields: map<string, Value>, key: string): Value {
    if key in fields && Truthy(fields[key]) then fields[key] else Plain(map[])
  }

  /** What one key of a plain source does to the target's value at that key (object.ts:32-39). */
  function MergeField(fields: map<string, Value>, key: string, sv: Value): Value
    decreases sv, 1
  {
    if sv.Plain? then Merge(Slot(fields, key), sv) else sv
  }

  /** deepMerge(target, source) for a single source (object.ts:29-41): a no-op unless both are plain. */
  function Merge(target: Value, source: Value): Value
    decreases source, 0
  {
    if target.Plain? && source.Plain? then
      Plain(map k | k in target.fields.Keys + source.fields.Keys ::
              if k in source.fields then MergeField(target.fields, k, source.fields[k]) else target.fields[k])
    else target
  }

  /** deepMerge(target, ...sources) (object.ts:23-44): left to right, stopping at the first undefined source. */
  function MergeAll(target: Value, sources: seq<Value>): Value
    decreases |sources|
  {
    if sources == [] then target
    else if sources[0] == Undef then target
    else MergeAll(Merge(target, sources[0]), sources[1..])
  }

  /** The target's fields once the keys in `done` of the source have been merged. */
  ghost function MergedFields(tf: map<string, Value>, sf: map<string, Value>, done: set<string>): map<string, Value>
    requires done <= sf.Keys
  {
    map k | k in tf.Keys + done :: if k in done then MergeField(tf, k, sf[k]) else tf[k]
  }

  /** Merging one more key of the source updates the target's fields at that key only. */
  lemma MergedFieldsStep(tf: map<string, Value>, sf: map<string, Value>, done: set<string>, key: string)
    requires done <= sf.Keys && key in sf && key !in done
    ensures MergedFields(tf, sf, done + {key}) == MergedFields(tf, sf, done)[key := MergeField(tf, key, sf[key])]
  {
    var a := MergedFields(tf, sf, done + {key});
    var b := MergedFields(tf, sf, done)[key := MergeField(tf, key, sf[key])];
    assert a.Keys == b.Keys;
    forall k | k in a.Keys
      ensures a[k] == b[k]
    {
    }
  }

  // ---------------------------------------------------------------------------
  // deepMerge as the source runs it
  // ---------------------------------------------------------------------------

  /** The for..in loop over the source's keys (object.ts:30-40); keys may come in any order. */
  method MergeKeys(target: Value, source: Value) returns (r: Value)
    requires target.Plain? && source.Plain?
    ensures r == Merge(target, source)
    decreases source, 0
  {
    var fields := target.fields;
    var todo := source.fields.Keys;
    while todo != {}
      invariant todo <= source.fields.Keys
      invariant fields == MergedFields(target.fields, source.fields, source.fields.Keys - todo)
      decreases todo
    {
      var key :| key in todo;
      ghost var done := source.fields.Keys - todo;
      ghost var before := fields;
      MergedFieldsStep(target.fields, source.fields, done, key);
      var sv := source.fields[key];
      var sourcePlain := IsPlainObject(sv);
      if sourcePlain {
        if !(key in fields && Truthy(fields[key])) {
          fields := fields[key := Plain(map[])];             // Object.assign(target, { [key]: {} })
        }
        var merged := MergeValue(fields[key], sv);          // deepMerge(target[key], source[key])
        fields := fields[key := merged];
      } else {
        fields := fields[key := sv];                        // Object.assign(target, { [key]: source[key] })
      }
      assert fields == before[key := MergeField(target.fields, key, sv)];
      todo := todo - {key};
      assert source.fields.Keys - todo == done + {key};
    }
    assert source.fields.Keys - todo == source.fields.Keys;
    r := Plain(fields);
  }

  /** deepMerge with exactly one source, the shape of the recursive call at object.ts:36. */
  method MergeValue(target: Value, source: Value) returns (r: Value)
    ensures r == Merge(target, source)
    decreases source, 1
  {
    var targetPlain := IsPlainObject(target);
    var sourcePlain := IsPlainObject(source);
    if targetPlain && sourcePlain {
      r := MergeKeys(target, source);
    } else {
      r := target;
    }
  }

  /** deepMerge(target, ...sources) (object.ts:23-44). */
  method DeepMerge(target: Value, sources: seq<Value>) returns (r: Value)
    ensures r == MergeAll(target, sources)
    decreases |sources|
  {
    if |sources| == 0 {
      return target;
    }
    var source := sources[0];
    if source == Undef {
      return target;
    }
    var merged := MergeValue(target, source);
    r := DeepMerge(merged, sources[1..]);
  }

  // ---------------------------------------------------------------------------
  // Properties of deepMerge
  // ---------------------------------------------------------------------------

  /** With no sources the target comes back unchanged (object.ts:24). */
  lemma MergeAllNoSources(target: Value)
    ensures MergeAll(target, []) == target
  {
  }

  /** An undefined source stops the merge: it and every later source are ignored (object.ts:27). */
  lemma {:induction false} MergeAllStopsAtUndefined(target: Value, before: seq<Value>, after: seq<Value>)
    ensures MergeAll(target, before + [Undef] + after) == MergeAll(target, before)
    decreases |before|
  {
    if before != [] {
      if before[0] != Undef {
        assert (before + [Undef] + after)[1..] == before[1..] + [Undef] + after;
        MergeAllStopsAtUndefined(Merge(target, before[0]), before[1..], after);
      }
    } else {
      assert (before + [Undef] + after)[0] == Undef;
    }
  }

  /** Sources are applied left to right: one more source is merged into the result of the earlier ones (object.ts:43). */
  lemma {:induction false} MergeAllLeftToRight(target: Value, before: seq<Value>, source: Value)
    requires forall i :: 0 <= i < |before| ==> before[i] != Undef
    ensures MergeAll(target, before + [source]) == Merge(MergeAll(target, before), source)
    decreases |before|
  {
    if before == [] {
      assert MergeAll(Merge(target, source), []) == Merge(target, source);
    } else {
      assert (before + [source])[1..] == before[1..] + [source];
      MergeAllLeftToRight(Merge(target, before[0]), before[1..], source);
    }
  }

  /** Merging into a plain object gives a plain object. */
  lemma {:induction false} MergeAllKeepsPlain(target: Value, sources: seq<Value>)
    requires target.Plain?
    ensures MergeAll(target, sources).Plain?
    decreases |sources|
  {
    if sources != [] && sources[0] != Undef {
      MergeAllKeepsPlain(Merge(target, sources[0]), sources[1..]);
    }
  }

  /** A target or source that is not a plain object makes the step a no-op (object.ts:29). */
  lemma MergeNonPlainIsNoOp(target: Value, source: Value)
    requires !target.Plain? || !source.Plain?
    ensures Merge(target, source) == target
  {
  }

  /** Merging plain objects: the keys are the union, and each key is decided on its own (object.ts:30-40). */
  lemma MergeFields(target: Value, source: Value, k: string)
    requires target.Plain? && source.Plain?
    ensures Merge(target, source).Plain?
    ensures Merge(target, source).fields.Keys == target.fields.Keys + source.fields.Keys
    ensures k in source.fields ==> Merge(target, source).fields[k] == MergeField(target.fields, k, source.fields[k])
    ensures k !in source.fields && k in target.fields ==> Merge(target, source).fields[k] == target.fields[k]
  {
  }

  /**
   * The effect at one key of a plain source: a non-plain source value overwrites wholesale;
   * a plain one is merged into the existing object, into a fresh {} when the existing value
   * is missing or falsy, and leaves a truthy non-plain value untouched.
   */
  lemma MergeAtKey(target: Value, source: Value, k: string)
    requires target.Plain? && source.Plain? && k in source.fields
    ensures !source.fields[k].Plain? ==>
              Merge(target, source).fields[k] == source.fields[k]
    ensures source.fields[k].Plain? && (k !in target.fields || !Truthy(target.fields[k])) ==>
              Merge(target, source).fields[k] == Merge(Plain(map[]), source.fields[k])
    ensures source.fields[k].Plain? && k in target.fields && target.fields[k].Plain? ==>
              Merge(target, source).fields[k] == Merge(target.fields[k], source.fields[k])
    ensures source.fields[k].Plain? && k in target.fields && Truthy(target.fields[k]) && !target.fields[k].Plain? ==>
              Merge(target, source).fields[k] == target.fields[k]
  {
    MergeFields(target, source, k);
  }

  /** Merging into a fresh {} yields an equal copy of a plain source (object.ts:34). */
  lemma {:induction false} MergeIntoEmptyCopies(source: Value)
    requires source.Plain?
    ensures Merge(Plain(map[]), source) == source
    decreases source
  {
    var r := Merge(Plain(map[]), source);
    forall k | k in source.fields
      ensures r.fields[k] == source.fields[k]
    {
      MergeFields(Plain(map[]), source, k);
      if source.fields[k].Plain? {
        MergeIntoEmptyCopies(source.fields[k]);
      }
    }
    assert r.fields == source.fields;
  }

  /** Merging the same source twice changes nothing more than merging it once. */
  lemma {:induction false} MergeIdempotent(target: Value, source: Value)
    ensures Merge(Merge(target, source), source) == Merge(target, source)
    decreases source
  {
    if target.Plain? && source.Plain? {
      var m := Merge(target, source);
      var mm := Merge(m, source);
      forall k | k in m.fields
        ensures mm.fields[k] == m.fields[k]
      {
        MergeFields(target, source, k);
        MergeFields(m, source, k);
        var slot := Slot(target.fields, k);
        if k in source.fields && source.fields[k].Plain? && slot.Plain? {
          MergeIdempotent(slot, source.fields[k]);
        }
      }
      assert mm.fields == m.fields;
    }
  }

  /** The worked examples: nested plain objects are unioned, arrays are replaced. */
  lemma MergeExamples()
    ensures Merge(Plain(map["a" := Plain(map["x" := Num(1)])]), Plain(map["a" := Plain(map["y" := Num(2)])]))
         == Plain(map["a" := Plain(map["x" := Num(1), "y" := Num(2)])])
    ensures Merge(Plain(map["a" := Arr([Num(1), Num(2)])]), Plain(map["a" := Arr([Num(3)])]))
         == Plain(map["a" := Arr([Num(3)])])
  {
    var inner := Merge(Plain(map["x" := Num(1)]), Plain(map["y" := Num(2)]));
    assert inner.fields.Keys == {"x", "y"};
    assert inner == Plain(map["x" := Num(1), "y" := Num(2)]);
    var outer := Merge(Plain(map["a" := Plain(map["x" := Num(1)])]), Plain(map["a" := Plain(map["y" := Num(2)])]));
    assert outer.fields.Keys == {"a"};
    var arrays := Merge(Plain(map["a" := Arr([Num(1), Num(2)])]), Plain(map["a" := Arr([Num(3)])]));
    assert arrays.fields.Keys == {"a"};
  }

  // ---------------------------------------------------------------------------
  // Leaves along a path of keys
  // ---------------------------------------------------------------------------

  /** The value reached from v through plain objects along path. */
  function At(v: Value, path: seq<string>): Option<Value>
    decreases |path|
  {
    if path == [] then Some(v)
    else if v.Plain? && path[0] in v.fields then At(v.fields[path[0]], path[1..])
    else None
  }

  /** target is plain, and so is every object deepMerge descends into before the last key of path. */
  predicate OpenAlong(target: Value, path: seq<string>)
    decreases |path|
  {
    target.Plain? && (|path| <= 1 || OpenAlong(Slot(target.fields, path[0]), path[1..]))
  }

  /** source sets nothing at path or at any key above it, other than plain objects it merges through. */
  predicate Spares(source: Value, path: seq<string>)
    requires |path| >= 1
    decreases |path|
  {
    !(source.Plain? && path[0] in source.fields)
    || (source.fields[path[0]].Plain? && |path| > 1 && Spares(source.fields[path[0]], path[1..]))
  }

  /** The later source wins at a non-plain leaf, unless an earlier non-plain value blocks the way down. */
  lemma {:induction false} SourceLeafWins(target: Value, source: Value, path: seq<string>, leaf: Value)
    requires |path| >= 1 && OpenAlong(target, path)
    requires At(source, path) == Some(leaf) && !leaf.Plain?
    ensures At(Merge(target, source), path) == Some(leaf)
    decreases |path|
  {
    var k := path[0];
    var sv := source.fields[k];
    if |path| > 1 {
      SourceLeafWins(Slot(target.fields, k), sv, path[1..], leaf);
    }
  }

  /** A leaf of the target that the source spares is still there after the merge. */
  lemma {:induction false} TargetLeafKept(target: Value, source: Value, path: seq<string>, leaf: Value)
    requires |path| >= 1 && target.Plain?
    requires At(target, path) == Some(leaf) && Spares(source, path)
    ensures At(Merge(target, source), path) == Some(leaf)
    decreases |path|
  {
    if source.Plain? && path[0] in source.fields {
      var k := path[0];
      TargetLeafKept(target.fields[k], source.fields[k], path[1..], leaf);
    }
  }

  // ---------------------------------------------------------------------------
  // get(obj, path, defaultValue) (object.ts:56-68)
  // ---------------------------------------------------------------------------

  /** Reads keys one after the other; None when a null or undefined value is met before a key. */
  function Walk(v: Value, keys: seq<string>): Option<Value>
    decreases |keys|
  {
    if keys == [] then Some(v)
    else if IsNullish(v) then None
    else Walk(Property(v, keys[0]), keys[1..])
  }

  /** What get returns. */
  function GetPath(obj: Value, path: string, defaultValue: Value): Value {
    match Walk(obj, Strings.Split(path, '.'))
    case None => defaultValue
    case Some(r) => if r.Undef? then defaultValue else r
  }

  /** get as the source runs it: a loop over the dot-separated keys. */
  method Get(obj: Value, path: string, defaultValue: Value) returns (r: Value)
    ensures r == GetPath(obj, path, defaultValue)
  {
    var keys := Strings.Split(path, '.');
    var result := obj;
    var i := 0;
    while i < |keys|
      invariant 0 <= i <= |keys|
      invariant Walk(result, keys[i..]) == Walk(obj, keys)
    {
      if IsNullish(result) {
        return defaultValue;
      }
      assert keys[i..][1..] == keys[i + 1..];
      result := Property(result, keys[i]);
      i := i + 1;
    }
    r := if result.Undef? then defaultValue else result;
  }

  /** Along plain objects, get returns the value at the path, or the default when it is undefined. */
  lemma {:induction false} WalkFollowsPlainPath(obj: Value, keys: seq<string>, leaf: Value)
    requires At(obj, keys) == Some(leaf)
    ensures Walk(obj, keys) == Some(leaf)
    decreases |keys|
  {
    if keys != [] {
      WalkFollowsPlainPath(obj.fields[keys[0]], keys[1..], leaf);
    }
  }

  lemma GetReadsPlainPath(obj: Value, path: string, defaultValue: Value, leaf: Value)
    requires At(obj, Strings.Split(path, '.')) == Some(leaf)
    ensures GetPath(obj, path, defaultValue) == if leaf.Undef? then defaultValue else leaf
  {
    WalkFollowsPlainPath(obj, Strings.Split(path, '.'), leaf);
  }

  /** A null or undefined value met before the last key makes get return the default. */
  lemma {:induction false} WalkStopsAtNullish(obj: Value, keys: seq<string>, j: nat)
    requires j < |keys| && Walk(obj, keys[..j]).Some? && IsNullish(Walk(obj, keys[..j]).value)
    ensures Walk(obj, keys) == None
    decreases j
  {
    if j > 0 {
      assert keys[..j][1..] == keys[1..][..j - 1];
      WalkStopsAtNullish(Property(obj, keys[0]), keys[1..], j - 1);
    }
  }

  lemma GetDefaultsAtNullish(obj: Value, path: string, defaultValue: Value, j: nat)
    requires j < |Strings.Split(path, '.')|
    requires Walk(obj, Strings.Split(path, '.')[..j]).Some?
    requires IsNullish(Walk(obj, Strings.Split(path, '.')[..j]).value)
    ensures GetPath(obj, path, defaultValue) == defaultValue
  {
    WalkStopsAtNullish(obj, Strings.Split(path, '.'), j);
  }
}
