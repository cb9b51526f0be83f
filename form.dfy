/**
 * A form-encoded request body before percent-encoding: the key/value pairs of
 * the JavaScript object handed to `URLSearchParams`, in insertion order.
 */
module Form {
  import opened Wrappers

  datatype Param = Param(key: string, value: string)

  type FormBody = seq<Param>

  /** The keys of a body, in order. */
  function Keys(body: FormBody): (ks: seq<string>)
    ensures |ks| == |body|
    ensures forall i :: 0 <= i < |body| ==> ks[i] == body[i].key
  {
    seq(|body|, i requires 0 <= i < |body| => body[i].key)
  }

  /** No key occurs twice (a JavaScript object literal cannot repeat a key). */
  predicate DistinctKeys(body: FormBody)
  {
    forall i, j :: 0 <= i < j < |body| ==> body[i].key != body[j].key
  }

  /** What a reader of the body sees for `key`: the value stored under it (the first, should the key repeat). */
  function Lookup(body: FormBody, key: string): (v: Option<string>)
    ensures v.None? <==> key !in Keys(body)
    ensures v.Some? ==> Param(key, v.value) in body
  {
    if body == [] then None
    else if body[0].key == key then Some(body[0].value)
    else
      assert Keys(body) == [body[0].key] + Keys(body[1..]);
      var rest := Lookup(body[1..], key);
      assert rest.Some? ==> Param(key, rest.value) in body by {
        if rest.Some? {
          assert body == [body[0]] + body[1..];
        }
      }
      rest
  }

  /** Adding a pair under a new key leaves every other lookup unchanged. */
  lemma {:induction false} LookupAppend(body: FormBody, p: Param, key: string)
    ensures Lookup(body + [p], key) ==
      if key in Keys(body) then Lookup(body, key)
      else if p.key == key then Some(p.value) else None
    decreases |body|
  {
    if body != [] {
      assert (body + [p])[1..] == body[1..] + [p];
      assert Keys(body) == [body[0].key] + Keys(body[1..]);
      LookupAppend(body[1..], p, key);
    }
  }
}
