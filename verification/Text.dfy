/** Options and the searches the programs make in byte strings.
    A `string` stands for a C++ `std::string`; each `char` stands for one byte. */
module Text {
  datatype Option<+T> = None | Some(value: T)

  /** The index of the first `c`, or the length of `s` when there is none. */
  function Find(s: string, c: char): (i: nat)
    ensures i <= |s|
    ensures c !in s[..i]
    ensures i < |s| ==> s[i] == c
  {
    if s == "" || s[0] == c then 0 else
      assert s[..1 + Find(s[1..], c)] == [s[0]] + s[1..][..Find(s[1..], c)];
      1 + Find(s[1..], c)
  }

  /** `Find` is the only index that meets its contract. */
  lemma FindIs(s: string, c: char, i: nat)
    requires i <= |s| && c !in s[..i]
    requires i < |s| ==> s[i] == c
    ensures Find(s, c) == i
  {
    var j := Find(s, c);
    assert forall k | 0 <= k < j :: s[k] == s[..j][k] != c;
    assert forall k | 0 <= k < i :: s[k] == s[..i][k] != c;
  }

  lemma FindInPrefix(s: string, rest: string, c: char)
    requires Find(s, c) < |s|
    ensures Find(s + rest, c) == Find(s, c)
  {
    assert (s + rest)[..Find(s, c)] == s[..Find(s, c)];
    FindIs(s + rest, c, Find(s, c));
  }

  lemma Assoc<T>(a: seq<T>, b: seq<T>, c: seq<T>)
    ensures a + b + c == a + (b + c)
  {
  }

  lemma SameEntry<K, V>(m: map<K, V>, k: K)
    requires k in m
    ensures m[k := m[k]] == m
  {
  }

  lemma VisitAll<T>(all: set<T>)
    ensures all - all == {} && all - {} == all
  {
  }

  lemma VisitOne<T>(all: set<T>, left: set<T>, done: set<T>, x: T)
    requires left <= all && done == all - left && x in left
    ensures done + {x} == all - (left - {x}) && x !in done && left - {x} <= all
  {
  }

  /** The concatenation of a sequence of strings. */
  function Flatten(parts: seq<string>): (s: string)
  {
    if parts == [] then "" else parts[0] + Flatten(parts[1..])
  }

  lemma {:induction false} FlattenConcat(a: seq<string>, b: seq<string>)
    ensures Flatten(a + b) == Flatten(a) + Flatten(b)
  {
    if a == [] {
      assert a + b == b;
    } else {
      FlattenConcat(a[1..], b);
      assert (a + b)[1..] == a[1..] + b;
    }
  }

  lemma FlattenOne(s: string)
    ensures Flatten([s]) == s
  {
    assert [s][1..] == [];
  }

  /** True iff `t` occurs in `s`. */
  predicate Occurs(t: string, s: string) {
    exists i, j :: 0 <= i <= j <= |s| && s[i..j] == t
  }
}
