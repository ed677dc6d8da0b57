/** Shared value and failure types used by every module of the model. */
module Common {

  /** A value that may be absent (Python's `None` or a missing dictionary key). */
  datatype Option<+T> = None | Some(value: T)

  /** The outcome of an operation that may raise: `Err` carries the exception. */
  datatype Result<+T, +E> = Ok(value: T) | Err(error: E)

  /** A dynamically typed value as stored in a component input or a database row.
      `Null` is Python's `None`. */
  datatype Value = Null | Bool(b: bool) | Int(i: int) | Real(r: real) | Text(s: string) | List(items: seq<Value>)

  /** Python's truth value of a JSON-like value. */
  predicate Truthy(v: Value)
  {
    match v
    case Null => false
    case Bool(b) => b
    case Int(i) => i != 0
    case Real(r) => r != 0.0
    case Text(s) => s != ""
    case List(items) => items != []
  }

  /** A langflow `Data` record: its data dictionary and, when one was given,
      its text. */
  datatype Data = Data(data: map<string, Value>, text: Option<string>)

  /** What a component shows as `self.status`: nothing yet, a message, or a
      list of records. */
  datatype Status = NoStatus | Message(message: string) | Records(records: seq<Data>)

  /** `[f(x) for x in s]`. */
  function MapSeq<A, B>(f: A -> B, s: seq<A>): (r: seq<B>)
    ensures |r| == |s|
    ensures forall k :: 0 <= k < |s| ==> r[k] == f(s[k])
  {
    seq(|s|, k requires 0 <= k < |s| => f(s[k]))
  }

  lemma MapSeqAppend<A, B>(f: A -> B, a: seq<A>, b: seq<A>)
    ensures MapSeq(f, a + b) == MapSeq(f, a) + MapSeq(f, b)
  {
  }

  /** Taking element `j` out of `b` takes its image out of the mapped sequence. */
  lemma MapSeqRemove<A, B>(f: A -> B, b: seq<A>, j: nat)
    requires j < |b|
    ensures multiset(MapSeq(f, b)) == multiset(MapSeq(f, b[..j] + b[j + 1..])) + multiset{f(b[j])}
  {
    var front, back, m := b[..j], b[j + 1..], MapSeq(f, b);
    assert m[..j] == MapSeq(f, front);
    assert m[j + 1..] == MapSeq(f, back);
    MapSeqAppend(f, front, back);
    assert m == m[..j] + [m[j]] + m[j + 1..];
    assert multiset(m) == multiset(m[..j]) + multiset{m[j]} + multiset(m[j + 1..]);
  }

  /** Mapping two rearrangements of the same elements gives two rearrangements
      of the same images. */
  lemma {:induction false} MapSeqPermutation<A, B>(f: A -> B, a: seq<A>, b: seq<A>)
    requires multiset(a) == multiset(b)
    ensures multiset(MapSeq(f, a)) == multiset(MapSeq(f, b))
    decreases |a|
  {
    if a == [] {
      assert |multiset(b)| == 0;
    } else {
      assert a[0] in multiset(b);
      var j :| 0 <= j < |b| && b[j] == a[0];
      var rest := b[..j] + b[j + 1..];
      assert multiset(a[1..]) == multiset(rest) by {
        assert a == [a[0]] + a[1..];
        assert b == b[..j] + [b[j]] + b[j + 1..];
        assert multiset(a[1..]) == multiset(a) - multiset{a[0]};
        assert multiset(rest) == multiset(b) - multiset{a[0]};
      }
      MapSeqPermutation(f, a[1..], rest);
      MapSeqRemove(f, b, j);
      MapSeqRemove(f, a, 0);
      assert a[..0] + a[1..] == a[1..];
    }
  }
}
