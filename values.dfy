/**
 * The dynamically typed objects the rendering script gets from `YAML.load_file`
 * (the evaluation context, the job spec and the instance information), and the
 * handful of Ruby operations the script applies to them: `[]` with a String key,
 * `empty?` and `each`, for which every receiver that lacks the operation makes
 * Ruby raise and the model returns the corresponding error; `Hash#[]=` on the
 * entries of a Hash (the other receivers of `[]=` are handled where the script
 * calls it, in module JobSpec); and truthiness.
 */
module Values {

  /** A YAML-loaded Ruby object. A Hash keeps its keys in insertion order. */
  datatype Value =
    | Nil
    | Bool(b: bool)
    | Int(i: int)
    | Str(s: string)
    | List(items: seq<Value>)
    | Hash(entries: seq<(string, Value)>)

  /** The exceptions the script can raise while assembling the context. */
  datatype Error =
    | NoMethodError(name: string)     // the receiver does not define the method `name`
    | TypeError                       // `Integer#[]` or `Array#[]` given a String index
    | IndexError                      // `String#[]=` with a substring the receiver lacks
    | RuntimeError(message: string)   // `raise "..."` in the script itself
    | TemplateError(message: string)  // raised by the template engine, carried verbatim

  datatype Result<+T> = Ok(value: T) | Err(error: Error) {
    predicate IsFailure() { Err? }
    function PropagateFailure<U>(): Result<U> requires Err? { Err(error) }
    function Extract(): T requires Ok? { value }
  }

  datatype Option<+T> = None | Some(value: T)

  /** The result of a loop that has produced `done` and still has `rest` to run. */
  function Prepend<T>(done: seq<T>, rest: Result<seq<T>>): (r: Result<seq<T>>)
    ensures rest.Ok? ==> r == Ok(done + rest.value)
    ensures rest.Err? ==> r == rest
  {
    match rest
    case Ok(tail) => Ok(done + tail)
    case Err(e) => Err(e)
  }

  /** Prepending nothing changes nothing. */
  lemma PrependNothing<T>(rest: Result<seq<T>>)
    ensures Prepend([], rest) == rest
  {
    if rest.Ok? {
      assert [] + rest.value == rest.value;
    }
  }

  /** Prepending twice is prepending the two prefixes joined. */
  lemma PrependTwice<T>(first: seq<T>, second: seq<T>, rest: Result<seq<T>>)
    ensures Prepend(first, Prepend(second, rest)) == Prepend(first + second, rest)
  {
    if rest.Ok? {
      assert first + (second + rest.value) == first + second + rest.value;
    }
  }

  /** The keys of a Hash, in enumeration order. */
  function Keys(entries: seq<(string, Value)>): (ks: seq<string>)
    ensures |ks| == |entries|
    ensures forall j :: 0 <= j < |entries| ==> ks[j] == entries[j].0
  {
    if entries == [] then [] else [entries[0].0] + Keys(entries[1..])
  }

  /** A Ruby Hash never holds a key twice. */
  predicate UniqueKeys(entries: seq<(string, Value)>) {
    forall j, k :: 0 <= j < k < |entries| ==> entries[j].0 != entries[k].0
  }

  /** The value stored under `key`, if any. */
  function Lookup(entries: seq<(string, Value)>, key: string): (r: Option<Value>)
    ensures r.None? <==> key !in Keys(entries)
    ensures r.Some? ==> (key, r.value) in entries
  {
    if entries == [] then None
    else if entries[0].0 == key then Some(entries[0].1)
    else Lookup(entries[1..], key)
  }

  /** `Hash#[]`: the stored value, or nil for a missing key. */
  function Get(entries: seq<(string, Value)>, key: string): (r: Value)
    ensures key !in Keys(entries) ==> r == Nil
    ensures key in Keys(entries) ==> Lookup(entries, key) == Some(r)
  {
    match Lookup(entries, key)
    case Some(v) => v
    case None => Nil
  }

  /** In a Hash whose keys are distinct, each key reads back the value stored beside it. */
  lemma {:induction false} GetStored(entries: seq<(string, Value)>, j: int)
    requires UniqueKeys(entries) && 0 <= j < |entries|
    ensures Get(entries, entries[j].0) == entries[j].1
  {
    if j > 0 {
      var tail := entries[1..];
      assert UniqueKeys(tail) by {
        assert forall m :: 0 <= m < |tail| ==> tail[m] == entries[m + 1];
      }
      GetStored(tail, j - 1);
      assert tail[j - 1] == entries[j];
      assert entries[0].0 != entries[j].0;
      assert entries[j].0 in Keys(tail);
    }
  }

  /** `Hash#[]=`: replaces the value of an existing key, or appends the pair. */
  function Store(entries: seq<(string, Value)>, key: string, v: Value): (r: seq<(string, Value)>)
    ensures |entries| <= |r| <= |entries| + 1
  {
    if entries == [] then [(key, v)]
    else if entries[0].0 == key then [(key, v)] + entries[1..]
    else [entries[0]] + Store(entries[1..], key, v)
  }

  /** After `Hash#[]=` the key reads back the new value, and every other key reads as before. */
  lemma {:induction false} StoreLookup(entries: seq<(string, Value)>, key: string, v: Value)
    ensures Lookup(Store(entries, key, v), key) == Some(v)
    ensures forall k :: k != key ==> Lookup(Store(entries, key, v), k) == Lookup(entries, k)
  {
    var r := Store(entries, key, v);
    if entries != [] {
      if entries[0].0 == key {
        assert r[1..] == entries[1..];
      } else {
        StoreLookup(entries[1..], key, v);
        assert r[1..] == Store(entries[1..], key, v);
      }
    }
  }

  /** The keys of a non-empty Hash: the first key, then the keys of the rest. */
  lemma KeysUnfold(entries: seq<(string, Value)>)
    requires entries != []
    ensures Keys(entries) == [entries[0].0] + Keys(entries[1..])
  {
  }

  /** An existing key keeps its place in the enumeration order; a new key goes last. */
  lemma {:induction false} StoreKeys(entries: seq<(string, Value)>, key: string, v: Value)
    ensures Keys(Store(entries, key, v)) ==
      if key in Keys(entries) then Keys(entries) else Keys(entries) + [key]
  {
    var r := Store(entries, key, v);
    if entries == [] {
      assert r == [(key, v)];
      KeysUnfold(r);
    } else if entries[0].0 == key {
      assert r == [(key, v)] + entries[1..];
      assert r[1..] == entries[1..];
      KeysUnfold(r);
      KeysUnfold(entries);
      assert key in Keys(entries);
    } else {
      var rest := Store(entries[1..], key, v);
      assert r == [entries[0]] + rest;
      assert r[1..] == rest;
      StoreKeys(entries[1..], key, v);
      KeysUnfold(r);
      KeysUnfold(entries);
      assert Keys(r) == [entries[0].0] + Keys(rest);
      assert key in Keys(entries) <==> key in Keys(entries[1..]);
      if key !in Keys(entries[1..]) {
        assert Keys(r) == [entries[0].0] + (Keys(entries[1..]) + [key]);
        assert Keys(r) == ([entries[0].0] + Keys(entries[1..])) + [key];
      }
    }
  }

  /** Whether `needle` starts at position `i` of `s`. */
  predicate OccursAt(s: string, needle: string, i: int) {
    0 <= i <= |s| - |needle| && s[i..i + |needle|] == needle
  }

  /** `needle` occurs at the start of `s` exactly when it is a prefix of `s`. */
  lemma OccursAtStart(s: string, needle: string)
    ensures OccursAt(s, needle, 0) <==> needle <= s
  {
    if |needle| <= |s| {
      assert s[0..|needle|] == s[..|needle|];
    }
  }

  /** Occurrences in `s` after its first character are the occurrences in `s[1..]`, shifted by one. */
  lemma OccursShift(s: string, needle: string)
    requires s != []
    ensures forall i :: 0 <= i ==> (OccursAt(s, needle, i + 1) <==> OccursAt(s[1..], needle, i))
  {
    forall i | 0 <= i ensures OccursAt(s, needle, i + 1) <==> OccursAt(s[1..], needle, i) {
      if 0 <= i <= |s| - 1 - |needle| {
        var left, right := s[i + 1..i + 1 + |needle|], s[1..][i..i + |needle|];
        assert |left| == |right| == |needle|;
        assert forall m :: 0 <= m < |needle| ==> left[m] == s[i + 1 + m] == right[m];
      }
    }
  }

  /** Whether `needle` occurs in `s` at some position. */
  function Includes(s: string, needle: string): (b: bool)
    ensures b <==> exists i :: OccursAt(s, needle, i)
  {
    OccursAtStart(s, needle);
    if needle <= s then
      true
    else if s == [] then
      assert forall i :: !OccursAt(s, needle, i);
      false
    else
      var b := Includes(s[1..], needle);
      OccursShift(s, needle);
      assert b ==> exists i :: OccursAt(s, needle, i) by {
        if b {
          var i :| OccursAt(s[1..], needle, i);
          assert OccursAt(s, needle, i + 1);
        }
      }
      assert (exists i :: OccursAt(s, needle, i)) ==> b by {
        if exists i :: OccursAt(s, needle, i) {
          var i :| OccursAt(s, needle, i);
          assert i != 0;
          assert OccursAt(s[1..], needle, i - 1);
        }
      }
      b
  }

  /** Ruby's `receiver[key]` with a String key. */
  function Fetch(receiver: Value, key: string): (r: Result<Value>)
    ensures r.Ok? <==> receiver.Hash? || receiver.Str?
    ensures receiver.Hash? ==> r.value == Get(receiver.entries, key)
    ensures receiver.Str? ==> r.value == (if Includes(receiver.s, key) then Str(key) else Nil)
    ensures receiver.Int? || receiver.List? ==> r.error == TypeError
    ensures receiver.Nil? || receiver.Bool? ==> r.error == NoMethodError("[]")
  {
    match receiver
    case Hash(entries) => Ok(Get(entries, key))
    case Str(s) => Ok(if Includes(s, key) then Str(key) else Nil)
    case Int(_) => Err(TypeError)
    case List(_) => Err(TypeError)
    case Nil => Err(NoMethodError("[]"))
    case Bool(_) => Err(NoMethodError("[]"))
  }

  /** Ruby truthiness: only nil and false are falsy. */
  predicate Truthy(v: Value)
    ensures v.Bool? ==> (Truthy(v) <==> v.b)
    ensures !v.Nil? && !v.Bool? ==> Truthy(v)
  {
    !(v.Nil? || v == Bool(false))
  }

  /** `empty?`, defined on String, Array and Hash only. */
  function IsEmpty(v: Value): (r: Result<bool>)
    ensures r.Ok? <==> v.Str? || v.List? || v.Hash?
    ensures r.Ok? ==> (r.value <==> v in {Str([]), List([]), Hash([])})
    ensures r.Err? ==> r.error == NoMethodError("empty?")
  {
    match v
    case Str(s) => Ok(|s| == 0)
    case List(items) => Ok(|items| == 0)
    case Hash(entries) => Ok(|entries| == 0)
    case _ => Err(NoMethodError("empty?"))
  }

  /** What `each` yields: the elements of an Array, the `[key, value]` pairs of a Hash. */
  function EachElements(v: Value): (r: Result<seq<Value>>)
    ensures r.Ok? <==> v.List? || v.Hash?
    ensures r.Err? ==> r.error == NoMethodError("each")
    ensures v.List? ==> r.value == v.items
    ensures v.Hash? ==> |r.value| == |v.entries|
    ensures v.Hash? ==> forall j :: 0 <= j < |v.entries| ==>
              r.value[j] == List([Str(v.entries[j].0), v.entries[j].1])
  {
    match v
    case List(items) => Ok(items)
    case Hash(entries) =>
      Ok(seq(|entries|, j requires 0 <= j < |entries| => List([Str(entries[j].0), entries[j].1])))
    case _ => Err(NoMethodError("each"))
  }
}
