/** Flattening nested webhook data into one map whose keys are the joined paths. */
module Flatten {
  import opened Text

  /** A value of an event's data; everything that is not an object is a leaf. */
  datatype Json = Leaf(value: string) | Object(entries: map<string, Json>)

  /** The leaf at the end of a path of keys. */
  predicate At(data: Json, path: seq<string>, v: string)
    decreases |path|
  {
    if path == [] then data == Leaf(v)
    else data.Object? && path[0] in data.entries && At(data.entries[path[0]], path[1..], v)
  }

  function FullKey(prefix: string, key: string): string {
    if prefix == "" then key else prefix + "_" + key
  }

  function FullPath(prefix: string, path: seq<string>): string
    decreases |path|
  {
    if path == [] then prefix else FullPath(FullKey(prefix, path[0]), path[1..])
  }

  // ---------------------------------------------------------------- what flattening yields

  ghost predicate Sends(data: Json, done: set<string>, prefix: string, path: seq<string>, v: string, k: string) {
    path != [] && path[0] in done && At(data, path, v) && FullPath(prefix, path) == k
  }

  /** Some leaf with value v, under one of the keys `done`, is written to k. */
  ghost predicate Sent(data: Json, done: set<string>, prefix: string, k: string, v: string) {
    exists path :: Sends(data, done, prefix, path, v, k)
  }

  ghost predicate Target(data: Json, done: set<string>, prefix: string, k: string) {
    exists v :: Sent(data, done, prefix, k, v)
  }

  /** The result keeps the old keys and adds those of the leaves; a key of a leaf holds the
      value of such a leaf, every other key its old value. */
  ghost predicate Flattened(before: map<string, string>, after: map<string, string>,
                            data: Json, done: set<string>, prefix: string)
  {
    && (forall k :: k in after <==> k in before || Target(data, done, prefix, k))
    && (forall k :: k in after && Target(data, done, prefix, k) ==> Sent(data, done, prefix, k, after[k]))
    && (forall k :: k in after && !Target(data, done, prefix, k) ==> k in before && after[k] == before[k])
  }

  /** What one key sends: its leaf, or the leaves of its object. */
  lemma SentByKey(data: Json, key: string, prefix: string, k: string, v: string)
    requires data.Object? && key in data.entries
    ensures Sent(data, {key}, prefix, k, v) <==>
              if data.entries[key].Leaf? then k == FullKey(prefix, key) && v == data.entries[key].value
              else Sent(data.entries[key], data.entries[key].entries.Keys, FullKey(prefix, key), k, v)
  {
    var sub := data.entries[key];
    if Sent(data, {key}, prefix, k, v) {
      var path :| Sends(data, {key}, prefix, path, v, k);
      assert At(sub, path[1..], v);
      assert FullPath(prefix, path) == FullPath(FullKey(prefix, key), path[1..]);
      if sub.Object? {
        assert Sends(sub, sub.entries.Keys, FullKey(prefix, key), path[1..], v, k);
      } else {
        assert path[1..] == [];
      }
    }
    if sub.Leaf? {
      assert [key][1..] == [];
      assert FullPath(prefix, [key]) == FullPath(FullKey(prefix, key), []);
      assert Sends(data, {key}, prefix, [key], sub.value, FullKey(prefix, key));
    } else if Sent(sub, sub.entries.Keys, FullKey(prefix, key), k, v) {
      var path :| Sends(sub, sub.entries.Keys, FullKey(prefix, key), path, v, k);
      var whole := [key] + path;
      assert whole[1..] == path;
      assert Sends(data, {key}, prefix, whole, v, k);
    }
  }

  /** The keys of an object can be done in two parts. */
  lemma SentByBoth(data: Json, one: set<string>, other: set<string>, prefix: string, k: string, v: string)
    ensures Sent(data, one + other, prefix, k, v) <==>
              Sent(data, one, prefix, k, v) || Sent(data, other, prefix, k, v)
  {
    if Sent(data, one + other, prefix, k, v) {
      var path :| Sends(data, one + other, prefix, path, v, k);
      assert Sends(data, one, prefix, path, v, k) || Sends(data, other, prefix, path, v, k);
    }
    if Sent(data, one, prefix, k, v) {
      var path :| Sends(data, one, prefix, path, v, k);
      assert Sends(data, one + other, prefix, path, v, k);
    }
    if Sent(data, other, prefix, k, v) {
      var path :| Sends(data, other, prefix, path, v, k);
      assert Sends(data, one + other, prefix, path, v, k);
    }
  }

  lemma FlattenedInTurn(before: map<string, string>, mid: map<string, string>, after: map<string, string>, data: Json,
                        one: set<string>, other: set<string>, prefix: string)
    requires Flattened(before, mid, data, one, prefix)
    requires Flattened(mid, after, data, other, prefix)
    ensures Flattened(before, after, data, one + other, prefix)
  {
    hide Sent;
    forall k, v {
      SentByBoth(data, one, other, prefix, k, v);
    }
  }

  lemma NothingSent(before: map<string, string>, data: Json, prefix: string)
    ensures Flattened(before, before, data, {}, prefix)
  {}

  // ---------------------------------------------------------------- the walk

  /** What visiting one key can make of the result. */
  ghost predicate Writes(data: Json, key: string, prefix: string,
                         before: map<string, string>, after: map<string, string>)
    requires data.Object? && key in data.entries
    decreases data, 0
  {
    var sub := data.entries[key];
    if sub.Leaf? then after == before[FullKey(prefix, key) := sub.value]
    else Yields(sub, sub.entries.Keys, FullKey(prefix, key), before, after)
  }

  /** Some order of visiting the keys in `rest`, at this level and below, leads from one
      result to the other. */
  ghost predicate Yields(data: Json, rest: set<string>, prefix: string,
                         before: map<string, string>, after: map<string, string>)
    requires data.Object? && rest <= data.entries.Keys
    decreases data, 1, |rest|
  {
    if rest == {} then before == after
    else exists key, mid ::
           && key in rest
           && Writes(data, key, prefix, before, mid)
           && Yields(data, rest - {key}, prefix, mid, after)
  }

  class Result {
    var entries: map<string, string>

    constructor (entries: map<string, string>)
      ensures this.entries == entries
    {
      this.entries := entries;
    }
  }

  /** The recursive walk: keys are visited in any order, and all levels write to one object. */
  method FlattenMap(result: Result, data: Json, prefix: string)
    requires data.Object?
    modifies result
    ensures Yields(data, data.entries.Keys, prefix, old(result.entries), result.entries)
    decreases data
  {
    var remaining := data.entries.Keys;
    while remaining != {}
      invariant remaining <= data.entries.Keys
      invariant forall after :: Yields(data, remaining, prefix, result.entries, after) ==>
        Yields(data, data.entries.Keys, prefix, old(result.entries), after)
      decreases |remaining|
    {
      var key :| key in remaining;
      ghost var before := result.entries;
      match data.entries[key] {
        case Leaf(v) => result.entries := result.entries[FullKey(prefix, key) := v];
        case Object(_) => FlattenMap(result, data.entries[key], FullKey(prefix, key));
      }
      assert Writes(data, key, prefix, before, result.entries);
      forall after | Yields(data, remaining - {key}, prefix, result.entries, after)
        ensures Yields(data, remaining, prefix, before, after)
      {}
      remaining := remaining - {key};
    }
  }

  // ---------------------------------------------------------------- what every walk yields

  lemma {:induction false} WritesFlattened(data: Json, key: string, prefix: string,
                                           before: map<string, string>, after: map<string, string>)
    requires data.Object? && key in data.entries && Writes(data, key, prefix, before, after)
    ensures Flattened(before, after, data, {key}, prefix)
    decreases data, 0
  {
    hide Sent, Yields;
    var sub := data.entries[key];
    forall k, v {
      SentByKey(data, key, prefix, k, v);
    }
    if sub.Object? {
      YieldsFlattened(sub, sub.entries.Keys, FullKey(prefix, key), before, after);
    } else {
      assert Target(data, {key}, prefix, FullKey(prefix, key)) by {
        assert Sent(data, {key}, prefix, FullKey(prefix, key), sub.value);
      }
    }
  }

  /** The result of every walk keeps the old keys and adds those of the leaves; a key of a
      leaf holds the value of such a leaf. */
  lemma {:induction false} YieldsFlattened(data: Json, rest: set<string>, prefix: string,
                                           before: map<string, string>, after: map<string, string>)
    requires data.Object? && rest <= data.entries.Keys && Yields(data, rest, prefix, before, after)
    ensures Flattened(before, after, data, rest, prefix)
    decreases data, 1, |rest|
  {
    hide Flattened, Writes;
    if rest == {} {
      NothingSent(before, data, prefix);
    } else {
      var key, mid :| key in rest
        && Writes(data, key, prefix, before, mid) && Yields(data, rest - {key}, prefix, mid, after);
      WritesFlattened(data, key, prefix, before, mid);
      YieldsFlattened(data, rest - {key}, prefix, mid, after);
      FlattenedInTurn(before, mid, after, data, {key}, rest - {key}, prefix);
      assert {key} + (rest - {key}) == rest;
    }
  }

  /** Every walk can be finished. */
  lemma {:induction false} YieldsSome(data: Json, rest: set<string>, prefix: string, before: map<string, string>)
    returns (after: map<string, string>)
    requires data.Object? && rest <= data.entries.Keys
    ensures Yields(data, rest, prefix, before, after)
    decreases data, 1, |rest|
  {
    if rest == {} {
      return before;
    }
    var key :| key in rest;
    var mid := WritesSome(data, key, prefix, before);
    after := YieldsSome(data, rest - {key}, prefix, mid);
  }

  lemma {:induction false} WritesSome(data: Json, key: string, prefix: string, before: map<string, string>)
    returns (after: map<string, string>)
    requires data.Object? && key in data.entries
    ensures Writes(data, key, prefix, before, after)
    decreases data, 0
  {
    var sub := data.entries[key];
    if sub.Leaf? {
      after := before[FullKey(prefix, key) := sub.value];
    } else {
      after := YieldsSome(sub, sub.entries.Keys, FullKey(prefix, key), before);
    }
  }

  /** Any leaf can be the last one written: its key is visited last at every level. */
  lemma {:induction false} LeafLast(data: Json, rest: set<string>, prefix: string, before: map<string, string>,
                                    path: seq<string>, v: string)
    returns (after: map<string, string>)
    requires data.Object? && rest <= data.entries.Keys && path != [] && path[0] in rest && At(data, path, v)
    ensures Yields(data, rest, prefix, before, after)
    ensures FullPath(prefix, path) in after && after[FullPath(prefix, path)] == v
    decreases |path|, |rest|
  {
    var key, sub := path[0], data.entries[path[0]];
    if rest != {key} {
      var other :| other in rest && other != key;
      var mid := WritesSome(data, other, prefix, before);
      after := LeafLast(data, rest - {other}, prefix, mid, path, v);
    } else {
      assert FullPath(prefix, path) == FullPath(FullKey(prefix, key), path[1..]);
      if sub.Leaf? {
        assert path[1..] == [];
        after := before[FullKey(prefix, key) := v];
      } else {
        after := LeafLast(sub, sub.entries.Keys, FullKey(prefix, key), before, path[1..], v);
      }
      assert Writes(data, key, prefix, before, after);
      assert Yields(data, rest - {key}, prefix, after, after);
    }
  }

  // ---------------------------------------------------------------- when the order matters

  /** Leaves whose paths join to the same key have the same value. */
  ghost predicate Consistent(data: Json, prefix: string) {
    forall p, q, v, w :: At(data, p, v) && At(data, q, w) && FullPath(prefix, p) == FullPath(prefix, q) ==> v == w
  }

  lemma TargetsAgree(data: Json, done: set<string>, prefix: string, k: string, v: string, w: string)
    requires Consistent(data, prefix) && Sent(data, done, prefix, k, v) && Sent(data, done, prefix, k, w)
    ensures v == w
  {
    var p :| Sends(data, done, prefix, p, v, k);
    var q :| Sends(data, done, prefix, q, w, k);
  }

  lemma ConsistentMeansEqual(data: Json, prefix: string, before: map<string, string>,
                             one: map<string, string>, other: map<string, string>)
    requires data.Object? && Consistent(data, prefix)
    requires Yields(data, data.entries.Keys, prefix, before, one)
    requires Yields(data, data.entries.Keys, prefix, before, other)
    ensures one == other
  {
    hide Sent, Target, Yields, Consistent;
    YieldsFlattened(data, data.entries.Keys, prefix, before, one);
    YieldsFlattened(data, data.entries.Keys, prefix, before, other);
    forall k | k in one ensures k in other && one[k] == other[k] {
      if Target(data, data.entries.Keys, prefix, k) {
        TargetsAgree(data, data.entries.Keys, prefix, k, one[k], other[k]);
      }
    }
    assert one.Keys == other.Keys;
  }

  /** Some two orders of visiting give different results. */
  ghost predicate OrderMatters(data: Json, prefix: string, before: map<string, string>)
    requires data.Object?
  {
    exists one, other ::
      && one != other
      && Yields(data, data.entries.Keys, prefix, before, one)
      && Yields(data, data.entries.Keys, prefix, before, other)
  }

  lemma MeetingLeaves(data: Json, prefix: string, before: map<string, string>,
                      p: seq<string>, q: seq<string>, v: string, w: string)
    requires data.Object? && At(data, p, v) && At(data, q, w) && v != w
    requires FullPath(prefix, p) == FullPath(prefix, q)
    ensures OrderMatters(data, prefix, before)
  {
    hide Yields;
    var one := LeafLast(data, data.entries.Keys, prefix, before, p, v);
    var other := LeafLast(data, data.entries.Keys, prefix, before, q, w);
    assert one != other;
  }

  /** Main result: the result depends on the order in which keys are visited if and only if
      two leaves with different values join to the same key. */
  lemma OrderMattersIff(data: Json, prefix: string, before: map<string, string>)
    requires data.Object?
    ensures OrderMatters(data, prefix, before) <==> !Consistent(data, prefix)
  {
    hide Yields;
    if !Consistent(data, prefix) {
      var p, q, v, w :| At(data, p, v) && At(data, q, w) && FullPath(prefix, p) == FullPath(prefix, q) && v != w;
      MeetingLeaves(data, prefix, before, p, q, v, w);
    } else if OrderMatters(data, prefix, before) {
      var one, other :| one != other
        && Yields(data, data.entries.Keys, prefix, before, one)
        && Yields(data, data.entries.Keys, prefix, before, other);
      ConsistentMeansEqual(data, prefix, before, one, other);
    }
  }

  // ---------------------------------------------------------------- when paths are distinct

  ghost predicate DistinctPaths(data: Json, prefix: string) {
    forall p, q, v, w :: At(data, p, v) && At(data, q, w) && FullPath(prefix, p) == FullPath(prefix, q) ==> p == q
  }

  lemma {:induction false} LeafIsUnique(data: Json, path: seq<string>, v: string, w: string)
    requires At(data, path, v) && At(data, path, w)
    ensures v == w
    decreases |path|
  {
    if path != [] {
      LeafIsUnique(data.entries[path[0]], path[1..], v, w);
    }
  }

  /** Main result: with distinct paths the order never matters, at any level. */
  lemma DistinctPathsAreConsistent(data: Json, prefix: string)
    requires DistinctPaths(data, prefix)
    ensures Consistent(data, prefix)
    ensures data.Object? ==> forall before :: !OrderMatters(data, prefix, before)
  {
    forall p, q, v, w | At(data, p, v) && At(data, q, w) && FullPath(prefix, p) == FullPath(prefix, q) ensures v == w {
      LeafIsUnique(data, p, v, w);
    }
    hide OrderMatters;
    if data.Object? {
      forall before ensures !OrderMatters(data, prefix, before) {
        OrderMattersIff(data, prefix, before);
      }
    }
  }

  /** Some leaf's path joins to k. */
  ghost predicate Written(data: Json, prefix: string, k: string) {
    exists path, v :: At(data, path, v) && FullPath(prefix, path) == k
  }

  lemma WrittenIsTarget(data: Json, prefix: string, k: string)
    requires data.Object?
    ensures Written(data, prefix, k) <==> Target(data, data.entries.Keys, prefix, k)
  {
    var keys := data.entries.Keys;
    if Written(data, prefix, k) {
      var path, v :| At(data, path, v) && FullPath(prefix, path) == k;
      assert Sends(data, keys, prefix, path, v, k);
      assert Sent(data, keys, prefix, k, v);
    }
    if Target(data, keys, prefix, k) {
      var v :| Sent(data, keys, prefix, k, v);
      var path :| Sends(data, keys, prefix, path, v, k);
      assert At(data, path, v) && FullPath(prefix, path) == k;
    }
  }

  lemma LeafArrives(before: map<string, string>, after: map<string, string>, data: Json, prefix: string,
                    path: seq<string>, v: string)
    requires data.Object? && Consistent(data, prefix) && At(data, path, v)
    requires Flattened(before, after, data, data.entries.Keys, prefix)
    ensures FullPath(prefix, path) in after && after[FullPath(prefix, path)] == v
  {
    var keys, k := data.entries.Keys, FullPath(prefix, path);
    assert Sends(data, keys, prefix, path, v, k);
    assert Sent(data, keys, prefix, k, v);
    assert Target(data, keys, prefix, k);
    TargetsAgree(data, keys, prefix, k, after[k], v);
  }

  /** Main result: every leaf is at its path, every base entry no leaf is written to is kept,
      and there is nothing else. */
  lemma EveryLeafOnce(before: map<string, string>, after: map<string, string>, data: Json, prefix: string)
    requires data.Object? && Consistent(data, prefix)
    requires Yields(data, data.entries.Keys, prefix, before, after)
    ensures forall path, v :: At(data, path, v) ==>
      FullPath(prefix, path) in after && after[FullPath(prefix, path)] == v
    ensures forall k :: k in before && !Written(data, prefix, k) ==> k in after && after[k] == before[k]
    ensures forall k :: k in after <==> k in before || Written(data, prefix, k)
  {
    hide Yields;
    var keys := data.entries.Keys;
    YieldsFlattened(data, keys, prefix, before, after);
    forall k ensures Written(data, prefix, k) <==> Target(data, keys, prefix, k) {
      WrittenIsTarget(data, prefix, k);
    }
    hide Written, Target;
    forall path, v | At(data, path, v)
      ensures FullPath(prefix, path) in after && after[FullPath(prefix, path)] == v
    {
      LeafArrives(before, after, data, prefix, path, v);
    }
  }

  // ---------------------------------------------------------------- clean keys

  /** No key on the way to a leaf is empty or has an underscore. */
  ghost predicate CleanKeys(data: Json) {
    forall path, v :: At(data, path, v) ==> forall i :: 0 <= i < |path| ==> path[i] != "" && '_' !in path[i]
  }

  /** The key of a leaf is its path joined with underscores, empty keys at the start left out. */
  lemma {:induction false} FullPathIsJoin(prefix: string, path: seq<string>)
    ensures prefix != "" && path != [] ==> FullPath(prefix, path) == prefix + "_" + Join(path, '_')
    ensures prefix == "" && (path == [] || path[0] != "") ==> FullPath(prefix, path) == Join(path, '_')
    ensures prefix == "" && path != [] && path[0] == "" ==> FullPath(prefix, path) == FullPath("", path[1..])
    decreases |path|
  {
    if path != [] {
      FullPathIsJoin(FullKey(prefix, path[0]), path[1..]);
      if |path| > 1 {
        assert Join(path, '_') == path[0] + ['_'] + Join(path[1..], '_');
        var rest := Join(path[1..], '_');
        assert prefix + "_" + path[0] + "_" + rest == prefix + "_" + (path[0] + ['_'] + rest);
      }
    }
  }

  /** Main result: keys that are not empty and hold no underscore give distinct paths. */
  lemma CleanKeysGiveDistinctPaths(data: Json)
    requires data.Object? && CleanKeys(data)
    ensures DistinctPaths(data, "")
  {
    forall p, q, v, w | At(data, p, v) && At(data, q, w) && FullPath("", p) == FullPath("", q)
      ensures p == q
    {
      FullPathIsJoin("", p);
      FullPathIsJoin("", q);
      JoinInjective(p, q, '_');
    }
  }

  /** With an underscore in a key two leaves can meet, and then the order decides. */
  lemma CollidingKeys(before: map<string, string>)
    ensures OrderMatters(Object(map["a" := Object(map["b" := Leaf("1")]), "a_b" := Leaf("2")]), "", before)
  {
    var data := Object(map["a" := Object(map["b" := Leaf("1")]), "a_b" := Leaf("2")]);
    assert ["a", "b"][1..] == ["b"] && ["b"][1..] == [] && ["a_b"][1..] == [];
    assert At(data.entries["a"], ["b"], "1") by {
      assert At(Leaf("1"), [], "1");
    }
    assert At(data, ["a", "b"], "1") && At(data, ["a_b"], "2");
    assert FullPath("", ["a", "b"]) == FullPath("a", ["b"]) == FullPath("a_b", []) by {
      assert "a" + "_" + "b" == "a_b";
    }
    MeetingLeaves(data, "", before, ["a", "b"], ["a_b"], "1", "2");
  }

  // ---------------------------------------------------------------- the payload

  datatype Payload = Payload(
    id: string, event: string, occurredAt: string, accountId: string, campaignId: string, data: Json)

  function Base(p: Payload): map<string, string> {
    var base := map["id" := p.id, "event" := p.event, "occurred_at" := p.occurredAt, "account_id" := p.accountId];
    if p.campaignId != "" then base["campaign_id" := p.campaignId] else base
  }

  /** Some leaf with value v has the key k. */
  ghost predicate Arrives(data: Json, k: string, v: string) {
    exists path :: At(data, path, v) && FullPath("", path) == k
  }

  /** A field of the payload keeps its value unless a leaf is written to its key, and nothing
      but fields and leaves is there. */
  ghost predicate HasFields(p: Payload, flat: map<string, string>) {
    && (forall k :: k in flat <==>
          || Written(p.data, "", k) || k in {"id", "event", "occurred_at", "account_id"}
          || (k == "campaign_id" && p.campaignId != ""))
    && (!Written(p.data, "", "id") ==> flat["id"] == p.id)
    && (!Written(p.data, "", "event") ==> flat["event"] == p.event)
    && (!Written(p.data, "", "occurred_at") ==> flat["occurred_at"] == p.occurredAt)
    && (!Written(p.data, "", "account_id") ==> flat["account_id"] == p.accountId)
    && (!Written(p.data, "", "campaign_id") && p.campaignId != "" ==> flat["campaign_id"] == p.campaignId)
    && forall k :: Written(p.data, "", k) ==> Arrives(p.data, k, flat[k])
  }

  /** Every walk from a base keeps its entries unless a leaf is written to them. */
  lemma BaseStays(data: Json, base: map<string, string>, flat: map<string, string>)
    requires data.Object? && Yields(data, data.entries.Keys, "", base, flat)
    ensures forall k :: k in flat <==> k in base || Written(data, "", k)
    ensures forall k :: k in base && !Written(data, "", k) ==> flat[k] == base[k]
    ensures forall k :: Written(data, "", k) ==> Arrives(data, k, flat[k])
  {
    hide Yields;
    var keys := data.entries.Keys;
    YieldsFlattened(data, keys, "", base, flat);
    forall k ensures Written(data, "", k) <==> Target(data, keys, "", k) {
      WrittenIsTarget(data, "", k);
    }
    hide Written, Target;
    forall k | Written(data, "", k) ensures Arrives(data, k, flat[k]) {
      var path :| Sends(data, keys, "", path, flat[k], k);
      assert At(data, path, flat[k]);
    }
  }

  lemma BaseFields(p: Payload)
    ensures var base := Base(p);
      && (forall k :: k in base <==>
            k in {"id", "event", "occurred_at", "account_id"} || (k == "campaign_id" && p.campaignId != ""))
      && base["id"] == p.id && base["event"] == p.event && base["occurred_at"] == p.occurredAt
      && base["account_id"] == p.accountId && (p.campaignId != "" ==> base["campaign_id"] == p.campaignId)
  {}

  lemma FieldsStay(p: Payload, flat: map<string, string>)
    requires p.data.Object? && Yields(p.data, p.data.entries.Keys, "", Base(p), flat)
    ensures HasFields(p, flat)
  {
    hide Yields, Written, Arrives, Base;
    BaseStays(p.data, Base(p), flat);
    BaseFields(p);
  }

  method FlattenPayload(p: Payload) returns (flat: map<string, string>)
    requires p.data.Object?
    ensures Yields(p.data, p.data.entries.Keys, "", Base(p), flat)
    ensures HasFields(p, flat)
  {
    var result := new Result(
      map["id" := p.id, "event" := p.event, "occurred_at" := p.occurredAt, "account_id" := p.accountId]);
    if p.campaignId != "" {
      result.entries := result.entries["campaign_id" := p.campaignId];
    }
    FlattenMap(result, p.data, "");
    flat := result.entries;
    FieldsStay(p, flat);
  }
}
