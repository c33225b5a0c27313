/** The reducer of the graph state's `queries` field. */
module QueryState {

  /** `add_queries(existing, new)`: a new list holding the existing queries and
      then the new ones, each part in its original order. */
  function AddQueries(existing: seq<string>, incoming: seq<string>): (r: seq<string>)
    ensures |r| == |existing| + |incoming|
    ensures forall i :: 0 <= i < |existing| ==> r[i] == existing[i]
    ensures forall j :: 0 <= j < |incoming| ==> r[|existing| + j] == incoming[j]
  {
    existing + incoming
  }

  /** An empty update changes nothing, and updating an empty list gives the update. */
  lemma AddQueriesIdentity(queries: seq<string>)
    ensures AddQueries(queries, []) == queries
    ensures AddQueries([], queries) == queries
  {
  }

  lemma AddQueriesAssociative(a: seq<string>, b: seq<string>, c: seq<string>)
    ensures AddQueries(AddQueries(a, b), c) == AddQueries(a, AddQueries(b, c))
  {
    assert (a + b) + c == a + (b + c);
  }

  /** The state after applying successive updates with the reducer. */
  function Reduce(queries: seq<string>, updates: seq<seq<string>>): seq<string>
    decreases |updates|
  {
    if updates == [] then queries else Reduce(AddQueries(queries, updates[0]), updates[1..])
  }

  function Flatten(updates: seq<seq<string>>): seq<string>
    decreases |updates|
  {
    if updates == [] then [] else updates[0] + Flatten(updates[1..])
  }

  /** Reducing a run of updates appends all of them, in order, so the result
      does not depend on how the updates are grouped. */
  lemma {:induction false} ReduceAppendsAll(queries: seq<string>, updates: seq<seq<string>>)
    ensures Reduce(queries, updates) == queries + Flatten(updates)
    decreases |updates|
  {
    if updates != [] {
      ReduceAppendsAll(AddQueries(queries, updates[0]), updates[1..]);
      assert (queries + updates[0]) + Flatten(updates[1..]) == queries + (updates[0] + Flatten(updates[1..]));
    }
  }

  lemma {:induction false} FlattenConcat(first: seq<seq<string>>, second: seq<seq<string>>)
    ensures Flatten(first + second) == Flatten(first) + Flatten(second)
    decreases |first|
  {
    if first != [] {
      assert (first + second)[0] == first[0];
      assert (first + second)[1..] == first[1..] + second;
      FlattenConcat(first[1..], second);
      assert first[0] + (Flatten(first[1..]) + Flatten(second)) == (first[0] + Flatten(first[1..])) + Flatten(second);
    } else {
      assert first + second == second;
    }
  }

  /** Two batches of updates reduced one after the other give the same state as
      reducing them together. */
  lemma {:induction false} ReduceInBatches(queries: seq<string>, first: seq<seq<string>>, second: seq<seq<string>>)
    ensures Reduce(Reduce(queries, first), second) == Reduce(queries, first + second)
  {
    var middle := Reduce(queries, first);
    ReduceAppendsAll(queries, first);
    ReduceAppendsAll(middle, second);
    ReduceAppendsAll(queries, first + second);
    FlattenConcat(first, second);
    AddQueriesAssociative(queries, Flatten(first), Flatten(second));
  }
}
