/** Fixed-layout records: a list of byte fields and its concatenation. */
module FieldList {
  import opened Base

  function Flatten(fields: seq<Bytes>): (r: Bytes) {
    if fields == [] then [] else fields[0] + Flatten(fields[1..])
  }

  function Sum(widths: seq<nat>): (r: nat) {
    if widths == [] then 0 else widths[0] + Sum(widths[1..])
  }

  lemma Sum4(a: nat, b: nat, c: nat, d: nat)
    ensures Sum([a, b, c, d]) == a + b + c + d
  {
    assert Sum([d]) == d + Sum([]);
    assert [c, d][1..] == [d];
    assert Sum([c, d]) == c + Sum([d]);
    assert [b, c, d][1..] == [c, d];
    assert Sum([b, c, d]) == b + Sum([c, d]);
    assert [a, b, c, d][1..] == [b, c, d];
  }

  lemma {:induction false} SumConcat(a: seq<nat>, b: seq<nat>)
    ensures Sum(a + b) == Sum(a) + Sum(b)
  {
    if a == [] {
      assert a + b == b;
    } else {
      SumConcat(a[1..], b);
      assert (a + b)[1..] == a[1..] + b;
    }
  }

  /** Cuts a byte string into consecutive pieces of the given widths. */
  function Split(bytes: Bytes, widths: seq<nat>): (r: seq<Bytes>)
    requires |bytes| == Sum(widths)
    ensures |r| == |widths| && forall i :: 0 <= i < |r| ==> |r[i]| == widths[i]
    decreases |widths|
  {
    if widths == [] then []
    else [bytes[..widths[0]]] + Split(bytes[widths[0]..], widths[1..])
  }

  lemma {:induction false} FlattenLength(fields: seq<Bytes>, widths: seq<nat>)
    requires |fields| == |widths| && forall i :: 0 <= i < |fields| ==> |fields[i]| == widths[i]
    ensures |Flatten(fields)| == Sum(widths)
  {
    if fields != [] { FlattenLength(fields[1..], widths[1..]); }
  }

  /** Cutting a concatenation gives its fields back. */
  lemma {:induction false} SplitFlatten(fields: seq<Bytes>, widths: seq<nat>)
    requires |fields| == |widths| && forall i :: 0 <= i < |fields| ==> |fields[i]| == widths[i]
    requires |Flatten(fields)| == Sum(widths)
    ensures Split(Flatten(fields), widths) == fields
  {
    if fields != [] {
      var head, tail := fields[0], Flatten(fields[1..]);
      assert (head + tail)[..widths[0]] == head && (head + tail)[widths[0]..] == tail;
      FlattenLength(fields[1..], widths[1..]);
      SplitFlatten(fields[1..], widths[1..]);
    }
  }

  /** Concatenating the pieces of a byte string gives it back. */
  lemma {:induction false} FlattenSplit(bytes: Bytes, widths: seq<nat>)
    requires |bytes| == Sum(widths)
    ensures Flatten(Split(bytes, widths)) == bytes
    decreases |widths|
  {
    if widths != [] {
      FlattenSplit(bytes[widths[0]..], widths[1..]);
      assert bytes == bytes[..widths[0]] + bytes[widths[0]..];
      assert Split(bytes, widths)[1..] == Split(bytes[widths[0]..], widths[1..]);
    }
  }

  lemma {:induction false} FlattenConcat(a: seq<Bytes>, b: seq<Bytes>)
    ensures Flatten(a + b) == Flatten(a) + Flatten(b)
  {
    if a == [] {
      assert a + b == b;
    } else {
      var head, tail := a[0], Flatten(a[1..]);
      assert Flatten(a + b) == head + Flatten(a[1..] + b) by {
        assert (a + b)[0] == head && (a + b)[1..] == a[1..] + b;
      }
      FlattenConcat(a[1..], b);
      assert head + (tail + Flatten(b)) == head + tail + Flatten(b);
    }
  }

  /** Records of one layout with equal bytes have equal fields. */
  lemma {:induction false} FlattenInjective(a: seq<Bytes>, b: seq<Bytes>)
    requires |a| == |b| && forall i :: 0 <= i < |a| ==> |a[i]| == |b[i]|
    requires Flatten(a) == Flatten(b)
    ensures a == b
  {
    if a != [] {
      ConcatInjective(a[0], Flatten(a[1..]), b[0], Flatten(b[1..]));
      FlattenInjective(a[1..], b[1..]);
    }
  }
}
