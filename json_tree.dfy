/** An abstract JSON value tree: the form a record takes between the record
    codecs and the JSON text. Object members keep their order, because each
    record encoder promises its own fixed key order. */
module JsonTree {
  import opened Wrappers

  datatype Json =
    | JNull
    | JBool(b: bool)
    | JNum(n: int)
    | JStr(s: string)
    | JArr(items: seq<Json>)
    | JObj(members: seq<Member>)

  type Member = (string, Json)

  /** The value a decoder sees for `key` among the first `n` members:
      members are taken one after another, so the last one with that key
      wins. */
  function LookupBefore(ms: seq<Member>, key: string, n: nat): Option<Json>
    requires n <= |ms|
  {
    if n == 0 then None
    else if ms[n - 1].0 == key then Some(ms[n - 1].1)
    else LookupBefore(ms, key, n - 1)
  }

  /** What a lookup finds: nothing exactly when no member has the key, and
      otherwise the value of a member with the key that no later member
      overrides. */
  lemma {:induction false} LookupBeforeMeaning(ms: seq<Member>, key: string, n: nat)
    requires n <= |ms|
    ensures LookupBefore(ms, key, n).None? <==> forall i :: 0 <= i < n ==> ms[i].0 != key
    ensures LookupBefore(ms, key, n).Some? ==>
      exists i :: 0 <= i < n && ms[i] == (key, LookupBefore(ms, key, n).value) &&
        forall j :: i < j < n ==> ms[j].0 != key
  {
    if n > 0 && ms[n - 1].0 != key {
      LookupBeforeMeaning(ms, key, n - 1);
    }
  }

  /** The value a decoder sees for `key`: nothing exactly when no member
      has the key, and otherwise the value of the last member with it. */
  function Lookup(ms: seq<Member>, key: string): (r: Option<Json>)
    ensures r.None? <==> forall i :: 0 <= i < |ms| ==> ms[i].0 != key
    ensures r.Some? ==>
      exists i :: 0 <= i < |ms| && ms[i] == (key, r.value) && forall j :: i < j < |ms| ==> ms[j].0 != key
  {
    LookupBeforeMeaning(ms, key, |ms|);
    LookupBefore(ms, key, |ms|)
  }

  /** A field as the record decoders see it: a missing key and an explicit
      `null` both leave the field at its zero value. */
  function Field(ms: seq<Member>, key: string): (r: Option<Json>)
    ensures r.Some? ==> r.value != JNull && Lookup(ms, key) == r
    ensures r.None? ==> Lookup(ms, key) == None || Lookup(ms, key) == Some(JNull)
  {
    match Lookup(ms, key)
    case Some(JNull) => None
    case other => other
  }

  /** No key occurs twice among the members of an object. */
  predicate DistinctMemberKeys(ms: seq<Member>) {
    forall i, j :: 0 <= i < j < |ms| ==> ms[i].0 != ms[j].0
  }

  /** In an object without duplicate keys each member is its field's value
      (an explicit null leaves the field absent). */
  lemma FieldOfMember(ms: seq<Member>, i: nat)
    requires DistinctMemberKeys(ms) && i < |ms|
    ensures Field(ms, ms[i].0) == if ms[i].1 == JNull then None else Some(ms[i].1)
  {
    var r := Lookup(ms, ms[i].0);
    LookupBeforeMeaning(ms, ms[i].0, |ms|);
    assert r.Some?;
    var k :| 0 <= k < |ms| && ms[k] == (ms[i].0, r.value) &&
      forall j :: k < j < |ms| ==> ms[j].0 != ms[i].0;
    assert k == i;
  }

  /** A key that no member has is an absent field. */
  lemma FieldOfMissingKey(ms: seq<Member>, key: string)
    requires forall i :: 0 <= i < |ms| ==> ms[i].0 != key
    ensures Field(ms, key) == None
  {
    LookupBeforeMeaning(ms, key, |ms|);
  }

  /** No key is declared twice in a record's key list. */
  predicate DistinctKeys(keys: seq<string>) {
    forall i, j :: 0 <= i < j < |keys| ==> keys[i] != keys[j]
  }

  /** The members an encoder writes for the first `n` declared keys, in
      order: `values[i]` is what it decided for `keys[i]`, `None` when the
      field is omitted and `Some(v)` when the member `keys[i]: v` is
      written. */
  function EmitFirst(keys: seq<string>, values: seq<Option<Json>>, n: nat): (ms: seq<Member>)
    requires |keys| == |values| && n <= |keys|
    ensures |ms| <= n
  {
    if n == 0 then []
    else EmitFirst(keys, values, n - 1) + (if values[n - 1].Some? then [(keys[n - 1], values[n - 1].value)] else [])
  }

  /** The members of an encoded object: the fields that are written, in
      the declared key order. */
  function Emit(keys: seq<string>, values: seq<Option<Json>>): seq<Member>
    requires |keys| == |values|
  {
    EmitFirst(keys, values, |keys|)
  }

  /** Members appended after the first `n` do not change what those `n`
      say about a key. */
  lemma {:induction false} LookupBeforeExtend(ms: seq<Member>, more: seq<Member>, key: string, n: nat)
    requires n <= |ms|
    ensures LookupBefore(ms + more, key, n) == LookupBefore(ms, key, n)
  {
    if n > 0 {
      assert (ms + more)[n - 1] == ms[n - 1];
      LookupBeforeExtend(ms, more, key, n - 1);
    }
  }

  /** Reading a key after one more member: the new member wins when it has
      that key, and otherwise the earlier members decide. */
  lemma LookupAppend(ms: seq<Member>, m: Member, key: string)
    ensures Lookup(ms + [m], key) == if m.0 == key then Some(m.1) else Lookup(ms, key)
  {
    if m.0 != key {
      LookupBeforeExtend(ms, [m], key, |ms|);
    }
  }

  /** The duplicate-key law: of two members with the same key, the later
      one is the field's value (an explicit null clears it). */
  lemma LastDuplicateWins(ms: seq<Member>, key: string, v: Json)
    ensures Field(ms + [(key, v)], key) == if v == JNull then None else Some(v)
  {
    LookupAppend(ms, (key, v), key);
  }

  /** A member with another key leaves a field as it was: this is how
      unknown keys are ignored by every record decoder. */
  lemma FieldIgnoresOtherKey(ms: seq<Member>, other: string, v: Json, key: string)
    requires other != key
    ensures Field(ms + [(other, v)], key) == Field(ms, key)
  {
    LookupAppend(ms, (other, v), key);
  }

  /** A key that none of the first `n` declared keys is, is not written. */
  lemma {:induction false} EmitOmitsUndeclaredKey(keys: seq<string>, values: seq<Option<Json>>, n: nat, key: string)
    requires |keys| == |values| && n <= |keys|
    requires forall i :: 0 <= i < n ==> keys[i] != key
    ensures Lookup(EmitFirst(keys, values, n), key) == None
  {
    if n > 0 {
      EmitOmitsUndeclaredKey(keys, values, n - 1, key);
      var prefix := EmitFirst(keys, values, n - 1);
      if values[n - 1].Some? {
        assert EmitFirst(keys, values, n) == prefix + [(keys[n - 1], values[n - 1].value)];
        LookupAppend(prefix, (keys[n - 1], values[n - 1].value), key);
      } else {
        assert EmitFirst(keys, values, n) == prefix;
      }
    }
  }

  /** Decoding an emitted object gives back, key by key, what the encoder
      decided: the value it wrote, or absence when it omitted the key.
      Encoders never write an explicit null. */
  lemma {:induction false} FieldOfEmitFirst(keys: seq<string>, values: seq<Option<Json>>, n: nat, i: nat)
    requires |keys| == |values| && i < n <= |keys| && DistinctKeys(keys) && values[i] != Some(JNull)
    ensures Field(EmitFirst(keys, values, n), keys[i]) == values[i]
  {
    var key := keys[i];
    var prefix := EmitFirst(keys, values, n - 1);
    if values[n - 1].Some? {
      LookupAppend(prefix, (keys[n - 1], values[n - 1].value), key);
    } else {
      assert EmitFirst(keys, values, n) == prefix;
    }
    if i == n - 1 {
      if values[i].None? {
        EmitOmitsUndeclaredKey(keys, values, n - 1, key);
      }
    } else {
      FieldOfEmitFirst(keys, values, n - 1, i);
    }
  }

  /** Every declared key reads back what the encoder decided for it. */
  lemma EmitReadsBack(keys: seq<string>, values: seq<Option<Json>>)
    requires |keys| == |values|
    ensures DistinctKeys(keys) && (forall i :: 0 <= i < |values| ==> values[i] != Some(JNull)) ==>
      forall i :: 0 <= i < |keys| ==> Field(EmitFirst(keys, values, |keys|), keys[i]) == values[i]
  {
    forall i | 0 <= i < |keys| && DistinctKeys(keys) && (forall i :: 0 <= i < |values| ==> values[i] != Some(JNull))
      ensures Field(EmitFirst(keys, values, |keys|), keys[i]) == values[i] {
      FieldOfEmitFirst(keys, values, |keys|, i);
    }
  }

  lemma FieldOfEmit(keys: seq<string>, values: seq<Option<Json>>, i: nat)
    requires |keys| == |values| && i < |keys| && DistinctKeys(keys) && values[i] != Some(JNull)
    ensures Field(Emit(keys, values), keys[i]) == values[i]
  {
    FieldOfEmitFirst(keys, values, |keys|, i);
  }

  /** The omission law: when every field is omitted the object is `{}`. */
  lemma {:induction false} EmitNothing(keys: seq<string>, values: seq<Option<Json>>, n: nat)
    requires |keys| == |values| && n <= |keys|
    requires forall i :: 0 <= i < n ==> values[i].None?
    ensures EmitFirst(keys, values, n) == []
  {
    if n > 0 {
      EmitNothing(keys, values, n - 1);
    }
  }

  /** Fields omitted after the first `m` add no members. */
  lemma {:induction false} EmitNothingAfter(keys: seq<string>, values: seq<Option<Json>>, m: nat, n: nat)
    requires |keys| == |values| && m <= n <= |keys|
    requires forall i :: m <= i < n ==> values[i].None?
    ensures EmitFirst(keys, values, n) == EmitFirst(keys, values, m)
  {
    if n > m {
      EmitNothingAfter(keys, values, m, n - 1);
    }
  }

  /** The positions among the first `n` declared keys whose fields are
      written, in increasing order. */
  function PresentIndices(values: seq<Option<Json>>, n: nat): (idx: seq<nat>)
    requires n <= |values|
    ensures forall j :: 0 <= j < |idx| ==> idx[j] < n && values[idx[j]].Some?
    ensures forall j, k :: 0 <= j < k < |idx| ==> idx[j] < idx[k]
    ensures forall i :: 0 <= i < n && values[i].Some? ==> i in idx
  {
    if n == 0 then []
    else PresentIndices(values, n - 1) + (if values[n - 1].Some? then [n - 1] else [])
  }

  /** The key-order law: the members written are exactly the declared keys
      whose fields are present, each with its value, in the declared
      order. */
  lemma {:induction false} EmitKeyOrder(keys: seq<string>, values: seq<Option<Json>>, n: nat)
    requires |keys| == |values| && n <= |keys|
    ensures |EmitFirst(keys, values, n)| == |PresentIndices(values, n)|
    ensures forall j :: 0 <= j < |PresentIndices(values, n)| ==>
      EmitFirst(keys, values, n)[j] == (keys[PresentIndices(values, n)[j]], values[PresentIndices(values, n)[j]].value)
  {
    if n > 0 {
      EmitKeyOrder(keys, values, n - 1);
    }
  }
}
