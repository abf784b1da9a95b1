/** Shared vocabulary: options, the clock, and two facts about sequences that grow at the end. */
module Base {

  datatype Option<+T> = None | Some(value: T)

  /** A clock reading or a duration, in nanoseconds. */
  type Time = int

  const SECOND: Time := 1_000_000_000

  ghost predicate Distinct<T>(s: seq<T>) {
    forall i, j | 0 <= i < j < |s| :: s[i] != s[j]
  }

  ghost function Elements<T>(s: seq<T>): set<T> {
    set x | x in s
  }

  /** Everything but the last element. */
  function Init<T>(s: seq<T>): (r: seq<T>)
    requires s != []
    ensures |r| == |s| - 1
  {
    s[..|s| - 1]
  }

  function Last<T>(s: seq<T>): T
    requires s != []
  {
    s[|s| - 1]
  }

  lemma Snoc<T>(s: seq<T>, x: T)
    ensures Init(s + [x]) == s && Last(s + [x]) == x
  {
  }

  lemma DistinctSnoc<T>(s: seq<T>, x: T)
    requires Distinct(s) && x !in s
    ensures Distinct(s + [x]) && Elements(s + [x]) == Elements(s) + {x}
  {
  }

  /** Strict lexicographic order by code point. */
  predicate Precedes(a: string, b: string) {
    b != "" && (a == "" || a[0] < b[0] || (a[0] == b[0] && Precedes(a[1..], b[1..])))
  }

  lemma {:induction false} PrecedesTotal(a: string, b: string)
    ensures Precedes(a, b) || Precedes(b, a) || a == b
    ensures Precedes(a, b) ==> a != b && !Precedes(b, a)
    decreases |a|
  {
    if a == "" || b == "" {
    } else {
      PrecedesTotal(a[1..], b[1..]);
      assert a[0] == b[0] && a[1..] == b[1..] ==> a == b by {
        assert a == [a[0]] + a[1..] && b == [b[0]] + b[1..];
      }
    }
  }

  lemma {:induction false} PrecedesTransitive(a: string, b: string, c: string)
    requires Precedes(a, b) && Precedes(b, c)
    ensures Precedes(a, c)
    decreases |a|
  {
    if a == "" {
    } else if a[0] == b[0] == c[0] {
      PrecedesTransitive(a[1..], b[1..], c[1..]);
    }
  }

  ghost predicate Ascending(names: seq<string>) {
    forall i, j | 0 <= i < j < |names| :: Precedes(names[i], names[j])
  }

  lemma AscendingInsert(names: seq<string>, i: nat, name: string)
    requires Ascending(names) && i <= |names|
    requires forall j | 0 <= j < i :: Precedes(names[j], name)
    requires i < |names| ==> Precedes(name, names[i])
    ensures Ascending(names[..i] + [name] + names[i..])
  {
    var out := names[..i] + [name] + names[i..];
    forall j | i <= j < |names| ensures Precedes(name, names[j]) {
      if i < j {
        PrecedesTransitive(name, names[i], names[j]);
      }
    }
    forall a, b | 0 <= a < b < |out| ensures Precedes(out[a], out[b]) {
      assert out[a] == if a < i then names[a] else if a == i then name else names[a - 1];
      assert out[b] == if b < i then names[b] else if b == i then name else names[b - 1];
    }
  }

  /** Puts a new name into its place. */
  method InsertName(names: seq<string>, name: string) returns (out: seq<string>)
    requires Ascending(names) && name !in names
    ensures Ascending(out) && forall x :: x in out <==> x in names || x == name
  {
    var i := 0;
    while i < |names| && Precedes(names[i], name)
      invariant 0 <= i <= |names|
      invariant forall j | 0 <= j < i :: Precedes(names[j], name)
    {
      i := i + 1;
    }
    if i < |names| {
      PrecedesTotal(names[i], name);
    }
    AscendingInsert(names, i, name);
    assert names == names[..i] + names[i..];
    out := names[..i] + [name] + names[i..];
  }

  lemma InitLast<T>(s: seq<T>)
    requires s != []
    ensures s == Init(s) + [Last(s)]
  {
  }
}
