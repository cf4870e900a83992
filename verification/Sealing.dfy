/** AES-GCM as an ideal box: it opens only under the purpose it was sealed with (crypto.go). */
module Sealing {
  import opened Wrappers
  import opened Bytes
  import opened Stamps

  // What is authenticated beside the ciphertext: a kind bound to one stamp, or to one
  // row of the targets table.
  datatype Purpose =
    | UpstreamTokenFor(stamp: Stamp)
    | UserCredentialFor(stamp: Stamp)
    | AdminStaticFor(name: Text, rowId: Text)

  datatype Sealed<+T> = Sealed(purpose: Purpose, payload: T)

  function Open<T>(purpose: Purpose, box: Sealed<T>): Option<T> {
    if box.purpose == purpose then Some(box.payload) else None
  }

  // boundPurpose joins the kind and what it is bound to with a NUL.
  function BoundPurpose(kind: Text, bound: Text): Text { kind + [0] + bound }

  lemma FirstNul(kind: Text, bound: Text)
    requires 0 !in kind
    ensures BoundPurpose(kind, bound)[|kind|] == 0
    ensures forall i :: 0 <= i < |kind| ==> BoundPurpose(kind, bound)[i] != 0
  {
  }

  /** No kind holds a NUL, so the joined text names one kind and one binding. This is what
      lets `Purpose` be a datatype. */
  lemma BoundPurposesNeverCollide(k1: Text, b1: Text, k2: Text, b2: Text)
    requires 0 !in k1 && 0 !in k2
    requires BoundPurpose(k1, b1) == BoundPurpose(k2, b2)
    ensures k1 == k2 && b1 == b2
  {
    var p := BoundPurpose(k1, b1);
    FirstNul(k1, b1);
    FirstNul(k2, b2);
    assert !(|k1| < |k2|) && !(|k2| < |k1|);
    assert p[..|k1|] == k1 && p[..|k2|] == k2;
    assert p[|k1| + 1..] == b1 && p[|k2| + 1..] == b2;
  }
}
