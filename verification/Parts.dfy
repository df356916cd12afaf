/** Octets in pieces: what the pieces of a list come to, put together. */
module Parts {
  import opened Bytes

  /** No element twice. */
  ghost predicate Distinct<T>(s: seq<T>)
  {
    forall i, j :: 0 <= i < j < |s| ==> s[i] != s[j]
  }

  function Flat(parts: seq<seq<byte>>): seq<byte>
  {
    if parts == [] then [] else parts[0] + Flat(parts[1..])
  }

  lemma {:induction false} FlatAppend(parts: seq<seq<byte>>, part: seq<byte>)
    ensures Flat(parts + [part]) == Flat(parts) + part
  {
    if parts == [] {
      assert parts + [part] == [part];
      assert [part][1..] == [];
    } else {
      FlatAppend(parts[1..], part);
      assert (parts + [part])[1..] == parts[1..] + [part];
    }
  }

  lemma FlatNone()
    ensures Flat([]) == []
  {
  }

  lemma FlatOne(part: seq<byte>)
    ensures Flat([part]) == part
  {
  }

  lemma FlatHead(part: seq<byte>, rest: seq<seq<byte>>)
    ensures Flat([part] + rest) == part + Flat(rest)
  {
    assert ([part] + rest)[1..] == rest;
  }

  lemma {:induction false} FlatSplit(a: seq<seq<byte>>, b: seq<seq<byte>>)
    ensures Flat(a + b) == Flat(a) + Flat(b)
  {
    hide Flat;
    if a == [] {
      FlatNone();
      assert a + b == b;
    } else {
      FlatSplit(a[1..], b);
      FlatHead(a[0], a[1..]);
      FlatHead(a[0], a[1..] + b);
      assert [a[0]] + a[1..] == a;
      assert [a[0]] + (a[1..] + b) == a + b;
    }
  }

  lemma FlatPrefix(a: seq<seq<byte>>, b: seq<seq<byte>>)
    ensures Flat(a) <= Flat(a + b)
  {
    hide Flat;
    FlatSplit(a, b);
  }

  lemma OneMore(todo: seq<seq<byte>>, n: nat)
    requires 0 < n <= |todo|
    ensures Flat(todo[..n]) == Flat(todo[..n - 1]) + todo[n - 1]
  {
    hide Flat;
    assert todo[..n] == todo[..n - 1] + [todo[n - 1]];
    FlatAppend(todo[..n - 1], todo[n - 1]);
  }

  /** The first pieces are a prefix of the whole, and adding one adds its length. */
  lemma Exposed(todo: seq<seq<byte>>, n: nat)
    requires n <= |todo|
    ensures Flat(todo[..n]) <= Flat(todo) && Flat(todo[..0]) == []
    ensures n > 0 ==> Flat(todo[..n]) == Flat(todo[..n - 1]) + todo[n - 1]
  {
    hide Flat;
    FlatNone();
    assert todo[..0] == [];
    assert todo[..n] + todo[n..] == todo;
    FlatPrefix(todo[..n], todo[n..]);
    if n > 0 {
      OneMore(todo, n);
    }
  }

  lemma FlatCut(todo: seq<seq<byte>>, k: nat)
    requires k <= |todo|
    ensures Flat(todo) == Flat(todo[..k]) + Flat(todo[k..])
  {
    hide Flat;
    assert todo[..k] + todo[k..] == todo;
    FlatSplit(todo[..k], todo[k..]);
  }

  lemma FlatAround(todo: seq<seq<byte>>, k: nat)
    requires k < |todo|
    ensures Flat(todo) == Flat(todo[..k]) + todo[k] + Flat(todo[k + 1..])
  {
    hide Flat;
    OneMore(todo, k + 1);
    FlatCut(todo, k + 1);
  }

  lemma {:induction false} Longer(todo: seq<seq<byte>>, i: nat, k: nat)
    requires i <= k <= |todo|
    ensures |Flat(todo[..i])| <= |Flat(todo[..k])|
    decreases k
  {
    hide Flat;
    if i < k {
      Longer(todo, i, k - 1);
      OneMore(todo, k);
    }
  }
}
