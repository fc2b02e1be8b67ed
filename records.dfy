/** The array operations the three services apply to their module-level
    record arrays: `find`, `findIndex`, index assignment with a spread merge,
    and `splice(index, 1)`; together with declarative first-match reference
    definitions that the route specifications are written in. */
module Records {
  import opened Values
  import opened Http

  /** What a `find` / `findIndex` callback tests. */
  datatype Query =
      /** `record[key] === id` for an id parsed from the path; a path that
          does not parse (NaN, here None) is strictly equal to nothing. */
    | HasId(key: string, id: Option<int>)
      /** `u.username === username && u.password === password`. */
    | HasCredentials(username: Value, password: Value)

  predicate Satisfies(r: Record, q: Query)
  {
    match q
    case HasId(key, id) => id.Some? && Get(r, key) == Num(id.value)
    case HasCredentials(u, p) => Get(r, "username") == u && Get(r, "password") == p
  }

  /** `rs.findIndex(...)`, with None for -1: the FIRST index that satisfies q. */
  function FindIndex(rs: seq<Record>, q: Query): (i: Option<nat>)
    ensures i.Some? ==> i.value < |rs| && Satisfies(rs[i.value], q)
    ensures i.Some? ==> forall j :: 0 <= j < i.value ==> !Satisfies(rs[j], q)
    ensures i.None? <==> forall j :: 0 <= j < |rs| ==> !Satisfies(rs[j], q)
  {
    if rs == [] then None
    else if Satisfies(rs[0], q) then Some(0)
    else
      match FindIndex(rs[1..], q)
      case None => None
      case Some(k) => Some(k + 1)
  }

  /** `rs.find(...)`: the record at the index `findIndex` would report. */
  function Find(rs: seq<Record>, q: Query): (r: Option<Record>)
    ensures FindIndex(rs, q).None? ==> r == None
    ensures FindIndex(rs, q).Some? ==> r == Some(rs[FindIndex(rs, q).value])
  {
    if rs == [] then None
    else if Satisfies(rs[0], q) then Some(rs[0])
    else Find(rs[1..], q)
  }

  /** `rs.splice(i, 1)`: the element at i is dropped, the others keep their
      relative order. */
  function RemoveAt(rs: seq<Record>, i: nat): (r: seq<Record>)
    requires i < |rs|
    ensures |r| == |rs| - 1
    ensures forall j :: 0 <= j < i ==> r[j] == rs[j]
    ensures forall j :: i <= j < |r| ==> r[j] == rs[j + 1]
    ensures multiset(r) + multiset{rs[i]} == multiset(rs)
  {
    assert rs == rs[..i] + [rs[i]] + rs[i + 1..];
    rs[..i] + rs[i + 1..]
  }

  /** Reference definition: the sequence without its first record that
      satisfies q. */
  function RemoveFirst(rs: seq<Record>, q: Query): seq<Record>
  {
    if rs == [] then []
    else if Satisfies(rs[0], q) then rs[1..]
    else [rs[0]] + RemoveFirst(rs[1..], q)
  }

  /** Reference definition: the sequence with `patch` spread over its first
      record that satisfies q. */
  function UpdateFirst(rs: seq<Record>, q: Query, patch: Record): seq<Record>
  {
    if rs == [] then []
    else if Satisfies(rs[0], q) then [Merge(rs[0], patch)] + rs[1..]
    else [rs[0]] + UpdateFirst(rs[1..], q, patch)
  }

  /** `splice` at the index `findIndex` found removes exactly the first match. */
  lemma {:induction false} SpliceRemovesFirst(rs: seq<Record>, q: Query, i: nat)
    requires FindIndex(rs, q) == Some(i)
    ensures RemoveAt(rs, i) == RemoveFirst(rs, q)
  {
    if i > 0 {
      SpliceRemovesFirst(rs[1..], q, i - 1);
      assert RemoveAt(rs, i) == [rs[0]] + RemoveAt(rs[1..], i - 1);
    }
  }

  /** Assigning the merge at the index `findIndex` found updates exactly the
      first match. */
  lemma {:induction false} AssignUpdatesFirst(rs: seq<Record>, q: Query, patch: Record, i: nat)
    requires FindIndex(rs, q) == Some(i)
    ensures rs[i := Merge(rs[i], patch)] == UpdateFirst(rs, q, patch)
  {
    if i > 0 {
      AssignUpdatesFirst(rs[1..], q, patch, i - 1);
      assert rs[i := Merge(rs[i], patch)] == [rs[0]] + rs[1..][i - 1 := Merge(rs[i], patch)];
    }
  }

  /** With no match, neither reference operation changes anything. */
  lemma {:induction false} NoMatchNoChange(rs: seq<Record>, q: Query, patch: Record)
    requires FindIndex(rs, q).None?
    ensures RemoveFirst(rs, q) == rs
    ensures UpdateFirst(rs, q, patch) == rs
  {
    if rs != [] {
      NoMatchNoChange(rs[1..], q, patch);
    }
  }

  /** What removing the first match does, position by position. */
  lemma RemoveFirstEffect(rs: seq<Record>, q: Query, i: nat)
    requires FindIndex(rs, q) == Some(i)
    ensures |RemoveFirst(rs, q)| == |rs| - 1
    ensures forall j :: 0 <= j < i ==> RemoveFirst(rs, q)[j] == rs[j]
    ensures forall j :: i <= j < |rs| - 1 ==> RemoveFirst(rs, q)[j] == rs[j + 1]
    ensures multiset(RemoveFirst(rs, q)) + multiset{rs[i]} == multiset(rs)
  {
    SpliceRemovesFirst(rs, q, i);
  }

  /** What updating the first match does, position by position. */
  lemma UpdateFirstEffect(rs: seq<Record>, q: Query, patch: Record, i: nat)
    requires FindIndex(rs, q) == Some(i)
    ensures |UpdateFirst(rs, q, patch)| == |rs|
    ensures UpdateFirst(rs, q, patch)[i] == Merge(rs[i], patch)
    ensures forall j :: 0 <= j < |rs| && j != i ==> UpdateFirst(rs, q, patch)[j] == rs[j]
  {
    AssignUpdatesFirst(rs, q, patch, i);
  }

  /** Any record that satisfies q makes `find` succeed. */
  lemma FindSucceeds(rs: seq<Record>, q: Query, j: nat)
    requires j < |rs| && Satisfies(rs[j], q)
    ensures Find(rs, q).Some?
  {
  }

  /** The state of one service: its auto-increment counter and its array. */
  datatype Store = Store(nextId: nat, records: seq<Record>)

  /** The state after one request, and the answer to it. */
  datatype Outcome = Outcome(store: Store, response: Response)
}
