/**
 The shared state of the multi-agent graph and the reducers attached to its
 fields: `messages` is combined by sequence concatenation (`operator.add`),
 `data` and `metadata` by `merge_dicts`, a right-biased shallow map union.
 Python dicts become immutable Dafny maps, so "a new dict is built and the
 inputs are not mutated" holds by construction.
 */
module AgentStateModel {

  /** `merge_dicts(a, b)`, i.e. `{**a, **b}`: every key of either map, and
      on a key present in both the value from `b`. */
  function MergeDicts<V>(a: map<string, V>, b: map<string, V>): (r: map<string, V>)
    ensures r.Keys == a.Keys + b.Keys
    ensures forall k :: k in b ==> r[k] == b[k]
    ensures forall k :: k in a && k !in b ==> r[k] == a[k]
  {
    a + b
  }

  /** `operator.add` on two message sequences: all of `m1`, in order,
      followed by all of `m2`, in order, with nothing dropped. */
  function AppendMessages<M>(m1: seq<M>, m2: seq<M>): (r: seq<M>)
    ensures |r| == |m1| + |m2|
    ensures forall i :: 0 <= i < |m1| ==> r[i] == m1[i]
    ensures forall j :: 0 <= j < |m2| ==> r[|m1| + j] == m2[j]
  {
    m1 + m2
  }

  /** `AgentState`: the three fields of the typed dictionary. */
  datatype AgentState<M, V> = AgentState(messages: seq<M>, data: map<string, V>, metadata: map<string, V>)

  /** The state with nothing in it. */
  function Empty<M, V>(): AgentState<M, V>
  {
    AgentState([], map[], map[])
  }

  /** Applies each field's reducer to the two snapshots, field by field. */
  function Combine<M, V>(s1: AgentState<M, V>, s2: AgentState<M, V>): (r: AgentState<M, V>)
    ensures |r.messages| == |s1.messages| + |s2.messages|
    ensures r.messages[..|s1.messages|] == s1.messages
    ensures r.messages[|s1.messages|..] == s2.messages
    ensures r.data.Keys == s1.data.Keys + s2.data.Keys
    ensures r.metadata.Keys == s1.metadata.Keys + s2.metadata.Keys
    ensures forall k :: k in r.data ==> r.data[k] == if k in s2.data then s2.data[k] else s1.data[k]
    ensures forall k :: k in r.metadata ==> r.metadata[k] == if k in s2.metadata then s2.metadata[k] else s1.metadata[k]
  {
    AgentState(AppendMessages(s1.messages, s2.messages),
               MergeDicts(s1.data, s2.data),
               MergeDicts(s1.metadata, s2.metadata))
  }

  // ---------------------------------------------------------------------
  // Laws of merge_dicts

  lemma MergeAssociative<V>(a: map<string, V>, b: map<string, V>, c: map<string, V>)
    ensures MergeDicts(MergeDicts(a, b), c) == MergeDicts(a, MergeDicts(b, c))
  {
  }

  lemma MergeLeftIdentity<V>(a: map<string, V>)
    ensures MergeDicts(map[], a) == a
  {
  }

  lemma MergeRightIdentity<V>(a: map<string, V>)
    ensures MergeDicts(a, map[]) == a
  {
  }

  lemma MergeIdempotent<V>(a: map<string, V>)
    ensures MergeDicts(a, a) == a
  {
  }

  /** Merging in a map a second time changes nothing: later writes of the
      same keys win again. */
  lemma MergeAbsorbsRepeat<V>(a: map<string, V>, b: map<string, V>)
    ensures MergeDicts(MergeDicts(a, b), b) == MergeDicts(a, b)
  {
  }

  /** The two merge orders agree exactly when the maps agree on every shared key. */
  lemma MergeCommutesIff<V>(a: map<string, V>, b: map<string, V>)
    ensures MergeDicts(a, b) == MergeDicts(b, a) <==> forall k :: k in a && k in b ==> a[k] == b[k]
  {
  }

  /** `merge_dicts({x: 1}, {x: 2})` is `{x: 2}`, the other order `{x: 1}`. */
  lemma MergeNotCommutative()
    ensures MergeDicts(map["x" := 1], map["x" := 2]) == map["x" := 2]
    ensures MergeDicts(map["x" := 2], map["x" := 1]) == map["x" := 1]
    ensures MergeDicts(map["x" := 1], map["x" := 2]) != MergeDicts(map["x" := 2], map["x" := 1])
  {
    assert MergeDicts(map["x" := 1], map["x" := 2])["x"] == 2;
  }

  // ---------------------------------------------------------------------
  // Laws of the message reducer and of Combine

  lemma AppendAssociative<M>(m1: seq<M>, m2: seq<M>, m3: seq<M>)
    ensures AppendMessages(AppendMessages(m1, m2), m3) == AppendMessages(m1, AppendMessages(m2, m3))
  {
  }

  /** No deduplication: appending a sequence to itself doubles its length. */
  lemma AppendKeepsDuplicates<M>(m: seq<M>)
    ensures |AppendMessages(m, m)| == 2 * |m|
    ensures AppendMessages(m, m) == m <==> m == []
  {
  }

  lemma CombineAssociative<M, V>(s1: AgentState<M, V>, s2: AgentState<M, V>, s3: AgentState<M, V>)
    ensures Combine(Combine(s1, s2), s3) == Combine(s1, Combine(s2, s3))
  {
  }

  lemma CombineIdentity<M, V>(s: AgentState<M, V>)
    ensures Combine(Empty(), s) == s
    ensures Combine(s, Empty()) == s
  {
  }

  /** The maps are idempotent but the messages are not: combining a state
      with itself gives back that state exactly when it holds no messages. */
  lemma CombineIdempotentIff<M, V>(s: AgentState<M, V>)
    ensures Combine(s, s).data == s.data && Combine(s, s).metadata == s.metadata
    ensures Combine(s, s) == s <==> s.messages == []
  {
  }

  /** The three reducers do not interact: each field of the result depends
      only on that field of the two inputs, so an update to `data` never
      changes the combined `metadata` or `messages`. */
  lemma CombineFieldsIndependent<M, V>(s1: AgentState<M, V>, s2: AgentState<M, V>, t1: AgentState<M, V>, t2: AgentState<M, V>)
    ensures s1.messages == t1.messages && s2.messages == t2.messages ==> Combine(s1, s2).messages == Combine(t1, t2).messages
    ensures s1.data == t1.data && s2.data == t2.data ==> Combine(s1, s2).data == Combine(t1, t2).data
    ensures s1.metadata == t1.metadata && s2.metadata == t2.metadata ==> Combine(s1, s2).metadata == Combine(t1, t2).metadata
  {
  }
}
