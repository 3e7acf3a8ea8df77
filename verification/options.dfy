/** Request options as PHP arrays: the values they hold, `array_merge`, `isset` and
    index assignment, and the method upper-casing `request` applies. */
module Options {
  import opened Php

  /** A PHP callable (a middleware or a handler), known only by identity. */
  datatype Callable = Callable(id: nat)

  /** An option value: a scalar, a string-keyed array, a callable, a handler stack (the
      layers pushed onto it, in order) or a multipart part list. */
  datatype Value =
    | Plain(scalar: Scalar)
    | Dict(fields: map<string, Value>)
    | Fn(callable: Callable)
    | Stack(layers: seq<Value>)
    | Parts(parts: seq<Part>)

  /** The contents of a multipart part: a handle opened on a path, or an inline value. */
  datatype Contents = Handle(path: string) | Inline(value: Value)

  /** One multipart part: `['name' => …, 'contents' => …]`. */
  datatype Part = Part(name: string, contents: Contents)

  /** `array_merge(a, b)` for string-keyed arrays. When either argument is not an array,
      PHP 7 warns and returns null. */
  function ArrayMerge(a: Value, b: Value): Value {
    if a.Dict? && b.Dict? then Dict(a.fields + b.fields) else Plain(Null)
  }

  /** `$v[key] = x` on an array or on null (null is auto-vivified into an array). */
  function WithKey(v: Value, key: string, x: Value): Value {
    if v.Dict? then Dict(v.fields[key := x]) else Dict(map[key := x])
  }

  /** `isset($m[key])`: the key is present and its value is not null. */
  predicate IsSet(m: map<string, Value>, key: string) {
    key in m && m[key] != Plain(Null)
  }

  /** `strtoupper` on one character: ASCII letters only. */
  function UpperChar(c: char): char {
    if 'a' <= c <= 'z' then (c as int - 32) as char else c
  }

  function Upper(s: string): string {
    seq(|s|, i requires 0 <= i < |s| => UpperChar(s[i]))
  }

  /** The merge is shallow and right-biased: it holds every key of both arrays; a key of the
      second array keeps its value there, even when both values are arrays; a key only in the
      first keeps its value from the first. */
  lemma MergePrecedence(a: map<string, Value>, b: map<string, Value>)
    ensures ArrayMerge(Dict(a), Dict(b)).Dict?
    ensures var m := ArrayMerge(Dict(a), Dict(b)).fields;
            m.Keys == a.Keys + b.Keys &&
            (forall k :: k in b ==> m[k] == b[k]) &&
            (forall k :: k in a && k !in b ==> m[k] == a[k])
  {
  }

  /** After `$v[key] = x` on an array or on null, `key` holds `x`, and the other keys of an
      array keep their values. */
  lemma WithKeyOverwrites(v: Value, key: string, x: Value)
    requires v.Dict? || v == Plain(Null)
    ensures var r := WithKey(v, key, x);
            r.Dict? && key in r.fields && r.fields[key] == x &&
            (v.Dict? ==> r.fields.Keys == v.fields.Keys + {key} &&
                         forall k :: k in v.fields && k != key ==> r.fields[k] == v.fields[k]) &&
            (v == Plain(Null) ==> r.fields.Keys == {key})
  {
  }

  /** Upper-casing keeps the length, turns each lower-case ASCII letter into the same letter
      in upper case, leaves no lower-case ASCII letter, changes nothing else, and is idempotent. */
  lemma UpperProperties(s: string)
    ensures |Upper(s)| == |s|
    ensures forall i :: 0 <= i < |s| && 'a' <= s[i] <= 'z' ==>
              'A' <= Upper(s)[i] <= 'Z' && Upper(s)[i] as int - 'A' as int == s[i] as int - 'a' as int
    ensures forall i :: 0 <= i < |s| ==> !('a' <= Upper(s)[i] <= 'z')
    ensures forall i :: 0 <= i < |s| && !('a' <= s[i] <= 'z') ==> Upper(s)[i] == s[i]
    ensures Upper(Upper(s)) == Upper(s)
  {
  }
}
