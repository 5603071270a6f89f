/**
 * JavaScript object literals as the generators use them: an ordered list of
 * key/value entries (the order `JSON.stringify` writes them in), property
 * assignment, which overwrites an existing key in place or appends a new one,
 * and object spread, which assigns each entry of the spread object in turn.
 */
module Records {
  import opened Types

  type Record<V> = seq<(string, V)>

  /** Property lookup: the value of the first entry with the key. */
  function Get<V>(r: Record<V>, k: string): Option<V> {
    if r == [] then None
    else if r[0].0 == k then Some(r[0].1)
    else Get(r[1..], k)
  }

  /** `obj[k] = v`. */
  function Set<V>(r: Record<V>, k: string, v: V): Record<V> {
    if r == [] then [(k, v)]
    else if r[0].0 == k then [(k, v)] + r[1..]
    else [r[0]] + Set(r[1..], k, v)
  }

  /** `{ ...r, ...s }`: the entries of `s` assigned onto `r`, first to last. */
  function Spread<V>(r: Record<V>, s: Record<V>): Record<V>
    decreases |s|
  {
    if s == [] then r else Spread(Set(r, s[0].0, s[0].1), s[1..])
  }

  ghost predicate UniqueKeys<V>(r: Record<V>) {
    forall i, j | 0 <= i < j < |r| :: r[i].0 != r[j].0
  }

  /** A key is missing exactly when no entry carries it. */
  lemma {:induction false} GetNone<V>(r: Record<V>, k: string)
    ensures Get(r, k).None? <==> forall i | 0 <= i < |r| :: r[i].0 != k
  {
    if r != [] {
      GetNone(r[1..], k);
      if r[0].0 != k {
        forall i | 0 <= i < |r| && i > 0 ensures r[i].0 == r[1..][i - 1].0 { }
      }
    }
  }

  /** After an assignment the key reads back the assigned value, and every other
      key reads as before. */
  lemma {:induction false} GetSet<V>(r: Record<V>, k: string, v: V, q: string)
    ensures Get(Set(r, k, v), q) == if q == k then Some(v) else Get(r, q)
  {
    if r != [] && r[0].0 != k {
      GetSet(r[1..], k, v, q);
    }
  }

  /** After a spread, a key the spread object carries reads its value there (with
      unique keys there is one); any other key reads as before. */
  lemma {:induction false} GetSpread<V>(r: Record<V>, s: Record<V>, q: string)
    requires UniqueKeys(s)
    ensures Get(Spread(r, s), q) == if Get(s, q).Some? then Get(s, q) else Get(r, q)
    decreases |s|
  {
    if s != [] {
      var r' := Set(r, s[0].0, s[0].1);
      assert UniqueKeys(s[1..]);
      GetSpread(r', s[1..], q);
      GetSet(r, s[0].0, s[0].1, q);
      if q == s[0].0 {
        GetNone(s[1..], q);
      }
    }
  }
}
