/**
 * The data joiner: a batched, best-effort join of local records with a remote
 * service's records. It collects the distinct truthy foreign keys, makes one
 * federation call for them, groups the reply by the join key, and attaches
 * the matching group (or an empty list) to every record. The federation call
 * is an oracle: its outcome is an input.
 */
module DataJoiner {
  import opened Js

  /** `mainData`: an array of records, or a single record. */
  datatype MainData = Many(rows: seq<Record>) | One(row: Record)

  datatype JoinOptions = JoinOptions(serviceName: string, endpointName: string,
                                     foreignKey: string, joinKey: string, asField: string)

  /** The arguments of the one `httpClient.request` call the joiner makes. */
  datatype RemoteCall = RemoteCall(serviceName: string, endpointName: string,
                                   params: seq<(string, string)>, data: Value, internal: bool)

  /** How that call settles: it throws, or resolves to the unwrapped reply. */
  datatype Remote = CallFailed(error: Exception) | Returned(reply: Value)

  /** `Array.isArray(mainData) ? mainData : [mainData]`. */
  function Rows(d: MainData): (rows: seq<Record>)
    ensures d.One? ==> rows == [d.row]
  {
    match d
    case Many(rows) => rows
    case One(row) => [row]
  }

  /** `dataArray.map(item => item[foreignKey]).filter(id => id)`. */
  function TruthyKeys(rows: seq<Record>, foreignKey: string): seq<Value>
    decreases |rows|
  {
    if rows == [] then []
    else
      var v := Field(rows[0], foreignKey);
      (if Truthy(v) then [v] else []) + TruthyKeys(rows[1..], foreignKey)
  }

  /** `[...new Set(s)]`: the first occurrence of each value, in order. */
  function Distinct(s: seq<Value>): seq<Value>
    decreases |s|
  {
    if s == [] then []
    else
      var d := Distinct(s[..|s| - 1]);
      if s[|s| - 1] in d then d else d + [s[|s| - 1]]
  }

  /** `joinIds`. */
  function JoinIds(rows: seq<Record>, foreignKey: string): seq<Value>
  {
    Distinct(TruthyKeys(rows, foreignKey))
  }

  /** The index of the first occurrence of `x` in `s`. */
  function FirstIndex(s: seq<Value>, x: Value): (i: nat)
    requires x in s
    ensures i < |s| && s[i] == x && x !in s[..i]
    decreases |s|
  {
    if s[0] == x then 0 else 1 + FirstIndex(s[1..], x)
  }

  /** `joinedData.forEach(item => item[joinKey] ...)` throws on a null or undefined item. */
  function KeyOf(item: Value, joinKey: string): Value
  {
    Get(item, joinKey)
  }

  /** The reply items whose join key is `k`, in reply order. */
  function Matching(items: seq<Value>, joinKey: string, k: Value): seq<Value>
    decreases |items|
  {
    if items == [] then []
    else
      var last := items[|items| - 1];
      Matching(items[..|items| - 1], joinKey, k) + (if KeyOf(last, joinKey) == k then [last] else [])
  }

  /** The reply can be iterated and every item read: it is an array with no null or undefined item. */
  predicate Iterable(reply: Value)
  {
    reply.Arr? && forall i :: 0 <= i < |reply.items| ==> !Nullish(reply.items[i])
  }

  /**
   * The grouping loop: `joinedDataMap` after `forEach`, or `None` when an item
   * throws. Every key with at least one item maps to exactly its items, in order.
   */
  method GroupByKey(items: seq<Value>, joinKey: string) returns (groups: Option<map<Value, seq<Value>>>)
    ensures groups.None? <==> exists i :: 0 <= i < |items| && Nullish(items[i])
    ensures groups.Some? ==> forall k :: k in groups.value <==> Matching(items, joinKey, k) != []
    ensures groups.Some? ==> forall k :: k in groups.value ==> groups.value[k] == Matching(items, joinKey, k)
  {
    var joined: map<Value, seq<Value>> := map[];
    var i := 0;
    while i < |items|
      invariant 0 <= i <= |items|
      invariant forall j :: 0 <= j < i ==> !Nullish(items[j])
      invariant forall k :: k in joined <==> Matching(items[..i], joinKey, k) != []
      invariant forall k :: k in joined ==> joined[k] == Matching(items[..i], joinKey, k)
    {
      var item := items[i];
      if Nullish(item) {
        return None;
      }
      var key := KeyOf(item, joinKey);
      if key !in joined {
        joined := joined[key := []];
      }
      joined := joined[key := joined[key] + [item]];
      assert items[..i + 1][..i] == items[..i];
      i := i + 1;
    }
    assert items[..i] == items;
    groups := Some(joined);
  }

  /** The list attached to a record: `joinedDataMap.get(item[foreignKey]) || []`. */
  function Attached(groups: map<Value, seq<Value>>, row: Record, foreignKey: string): seq<Value>
  {
    var k := Field(row, foreignKey);
    if k in groups then groups[k] else []
  }

  /** `{...item, [as]: list}`: the record with field `as` set, overriding any existing one. */
  function WithField(row: Record, field: string, list: seq<Value>): (r: Record)
    ensures r.Keys == row.Keys + {field} && r[field] == Arr(list)
    ensures forall k :: k in row && k != field ==> r[k] == row[k]
  {
    row[field := Arr(list)]
  }

  /**
   * `joinData(mainData, options)`: `call` is the federation call made (none
   * when there is no key), `remote` how it settles. Each output record is its
   * input record with field `as` holding the reply items that match its
   * foreign key, or `[]` when the call failed or its reply could not be read.
   */
  method JoinData(mainData: MainData, options: JoinOptions, remote: Remote)
    returns (out: seq<Record>, call: Option<RemoteCall>)
    ensures call.None? <==> JoinIds(Rows(mainData), options.foreignKey) == []
    ensures call.Some? ==>
      call.value == RemoteCall(options.serviceName, options.endpointName, [],
                               Obj(map["ids" := Arr(JoinIds(Rows(mainData), options.foreignKey))]), false)
    ensures |out| == |Rows(mainData)|
    ensures forall i :: 0 <= i < |out| ==>
      out[i] == WithField(Rows(mainData)[i], options.asField,
        if call.Some? && remote.Returned? && Iterable(remote.reply)
        then Matching(remote.reply.items, options.joinKey, Field(Rows(mainData)[i], options.foreignKey))
        else [])
  {
    var dataArray := Rows(mainData);
    var joinIds := JoinIds(dataArray, options.foreignKey);
    if joinIds == [] {
      return seq(|dataArray|, i requires 0 <= i < |dataArray| => WithField(dataArray[i], options.asField, [])), None;
    }
    call := Some(RemoteCall(options.serviceName, options.endpointName, [], Obj(map["ids" := Arr(joinIds)]), false));
    var groups: Option<map<Value, seq<Value>>> := None;
    if remote.Returned? && remote.reply.Arr? {
      groups := GroupByKey(remote.reply.items, options.joinKey);
    }
    if groups.None? {
      out := seq(|dataArray|, i requires 0 <= i < |dataArray| => WithField(dataArray[i], options.asField, []));
    } else {
      var joined := groups.value;
      out := seq(|dataArray|, i requires 0 <= i < |dataArray| =>
        WithField(dataArray[i], options.asField, Attached(joined, dataArray[i], options.foreignKey)));
      forall i | 0 <= i < |out|
        ensures Attached(joined, dataArray[i], options.foreignKey) ==
                Matching(remote.reply.items, options.joinKey, Field(dataArray[i], options.foreignKey))
      {
      }
    }
  }

  /** A matching group holds exactly the reply items with that key. */
  lemma {:induction false} MatchingMembers(items: seq<Value>, joinKey: string, k: Value, x: Value)
    ensures x in Matching(items, joinKey, k) <==> x in items && KeyOf(x, joinKey) == k
    decreases |items|
  {
    if items != [] {
      var init := items[..|items| - 1];
      MatchingMembers(init, joinKey, k, x);
      assert items == init + [items[|items| - 1]];
    }
  }

  /** The joined list keeps reply order: it is a subsequence of the reply. */
  lemma {:induction false} MatchingIsFilter(items: seq<Value>, joinKey: string, k: Value)
    ensures |Matching(items, joinKey, k)| <= |items|
    ensures Matching(items, joinKey, k) == items <==> forall i :: 0 <= i < |items| ==> KeyOf(items[i], joinKey) == k
    decreases |items|
  {
    if items != [] {
      var init := items[..|items| - 1];
      var last := items[|items| - 1];
      MatchingIsFilter(init, joinKey, k);
      assert items == init + [last];
      if KeyOf(last, joinKey) != k {
        assert |Matching(items, joinKey, k)| < |items|;
      }
    }
  }

  /** Membership in the truthy keys: exactly the truthy foreign keys of the records. */
  lemma {:induction false} TruthyKeysMembers(rows: seq<Record>, foreignKey: string, v: Value)
    ensures v in TruthyKeys(rows, foreignKey) <==>
      Truthy(v) && exists i :: 0 <= i < |rows| && Field(rows[i], foreignKey) == v
    decreases |rows|
  {
    if rows != [] {
      TruthyKeysMembers(rows[1..], foreignKey, v);
      if v in TruthyKeys(rows[1..], foreignKey) {
        var i :| 0 <= i < |rows[1..]| && Field(rows[1..][i], foreignKey) == v;
        assert Field(rows[i + 1], foreignKey) == v;
      }
      if exists i :: 0 <= i < |rows| && Field(rows[i], foreignKey) == v {
        var i :| 0 <= i < |rows| && Field(rows[i], foreignKey) == v;
        if i > 0 {
          assert Field(rows[1..][i - 1], foreignKey) == v;
        }
      }
    }
  }

  /** `Distinct` keeps every value once, loses none, and keeps first-occurrence order. */
  lemma {:induction false} DistinctSpec(s: seq<Value>)
    ensures forall x :: x in Distinct(s) <==> x in s
    ensures forall i, j :: 0 <= i < j < |Distinct(s)| ==> Distinct(s)[i] != Distinct(s)[j]
    ensures forall i, j :: 0 <= i < j < |Distinct(s)| ==>
      FirstIndex(s, Distinct(s)[i]) < FirstIndex(s, Distinct(s)[j])
    decreases |s|
  {
    if s != [] {
      var init := s[..|s| - 1];
      var last := s[|s| - 1];
      DistinctSpec(init);
      assert s == init + [last];
      var d := Distinct(init);
      forall x | x in init
        ensures FirstIndex(s, x) == FirstIndex(init, x)
      {
        FirstIndexPrefix(init, [last], x);
      }
      if last !in d {
        assert last !in init;
        assert FirstIndex(s, last) == |s| - 1 by {
          FirstIndexAfter(init, last);
        }
      }
    }
  }

  lemma {:induction false} FirstIndexPrefix(a: seq<Value>, b: seq<Value>, x: Value)
    requires x in a
    ensures FirstIndex(a + b, x) == FirstIndex(a, x)
    decreases |a|
  {
    if a[0] != x {
      assert (a + b)[1..] == a[1..] + b;
      FirstIndexPrefix(a[1..], b, x);
    }
  }

  lemma {:induction false} FirstIndexAfter(a: seq<Value>, x: Value)
    requires x !in a
    ensures FirstIndex(a + [x], x) == |a|
    decreases |a|
  {
    if a != [] {
      assert (a + [x])[1..] == a[1..] + [x];
      FirstIndexAfter(a[1..], x);
    }
  }

  /**
   * The keys sent: every truthy foreign key once, nothing else, in the order
   * each first appears among the records.
   */
  lemma JoinIdsSpec(rows: seq<Record>, foreignKey: string)
    ensures forall v :: v in JoinIds(rows, foreignKey) <==>
      Truthy(v) && exists i :: 0 <= i < |rows| && Field(rows[i], foreignKey) == v
    ensures forall i, j :: 0 <= i < j < |JoinIds(rows, foreignKey)| ==>
      JoinIds(rows, foreignKey)[i] != JoinIds(rows, foreignKey)[j]
    ensures forall v :: v in JoinIds(rows, foreignKey) ==> v in TruthyKeys(rows, foreignKey)
    ensures forall i, j :: 0 <= i < j < |JoinIds(rows, foreignKey)| ==>
      FirstIndex(TruthyKeys(rows, foreignKey), JoinIds(rows, foreignKey)[i]) <
      FirstIndex(TruthyKeys(rows, foreignKey), JoinIds(rows, foreignKey)[j])
  {
    DistinctSpec(TruthyKeys(rows, foreignKey));
    forall v
      ensures v in JoinIds(rows, foreignKey) <==>
        Truthy(v) && exists i :: 0 <= i < |rows| && Field(rows[i], foreignKey) == v
    {
      TruthyKeysMembers(rows, foreignKey, v);
    }
  }
}
