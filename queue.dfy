/** The in-memory matchmaking queue of the server: players waiting for an
    opponent, grouped by game type, stake asset and stake amount. */
module Queue {
  import opened Common
  import JsString

  /** The `GameType` and `Asset` names as they are written into a key. */
  function GameTypeName(g: GameType): string {
    match g
    case Chess => "chess"
    case TicTacToe => "tictactoe"
  }

  function AssetName(a: Asset): string {
    match a
    case USDT => "USDT"
    case ETH => "ETH"
    case POLYGON => "POLYGON"
  }

  /** `queueKey`: `gameType:stakeAsset:stakeAmount`, the amount as the client wrote it. */
  function QueueKey(g: GameType, a: Asset, stakeAmount: string): string {
    GameTypeName(g) + ":" + AssetName(a) + ":" + stakeAmount
  }

  /** Reading a key back: the text before the first colon, the text between
      the first two colons, and everything after the second. */
  function ParseKey(key: string): Option<(string, string, string)> {
    var parts := JsString.Split(key, ':');
    if |parts| < 3 then None else Some((parts[0], parts[1], JsString.Join(parts[2..], ':')))
  }

  /** Three pieces joined by colons, the first two without a colon, read back as they were. */
  lemma ParseKeyOf(gn: string, an: string, m: string)
    requires ':' !in gn && ':' !in an
    ensures ParseKey(gn + ":" + an + ":" + m) == Some((gn, an, m))
  {
    var parts := [gn] + ([an] + JsString.Split(m, ':'));
    assert JsString.Split(gn + ":" + an + ":" + m, ':') == parts by {
      assert gn + ":" + an + ":" + m == gn + [':'] + (an + [':'] + m);
      JsString.SplitAfter(gn, ':', an + [':'] + m);
      JsString.SplitAfter(an, ':', m);
    }
    DropPair(gn, an, JsString.Split(m, ':'));
    JsString.SplitJoin(m, ':');
  }

  lemma DropPair<T>(a: T, b: T, rest: seq<T>)
    ensures ([a] + ([b] + rest))[2..] == rest
  {
  }

  /** A key gives back the game type, the asset and the amount it was made
      of, whatever characters the amount holds. */
  lemma ParseQueueKey(g: GameType, a: Asset, stakeAmount: string)
    ensures ParseKey(QueueKey(g, a, stakeAmount)) == Some((GameTypeName(g), AssetName(a), stakeAmount))
  {
    assert ':' !in GameTypeName(g) && ':' !in AssetName(a);
    ParseKeyOf(GameTypeName(g), AssetName(a), stakeAmount);
  }

  /** Two entries share a list only when game type, asset and amount all agree. */
  lemma QueueKeyInjective(g1: GameType, a1: Asset, m1: string, g2: GameType, a2: Asset, m2: string)
    requires QueueKey(g1, a1, m1) == QueueKey(g2, a2, m2)
    ensures g1 == g2 && a1 == a2 && m1 == m2
  {
    ParseQueueKey(g1, a1, m1);
    ParseQueueKey(g2, a2, m2);
  }

  /** A waiting player: the room it created and when it joined the queue. */
  datatype Entry = Entry(userId: UserId, roomId: RoomId, createdAt: int)

  /** `arr.findIndex(e => e.userId !== u)`, searching from position i. */
  function FirstOther(s: seq<Entry>, u: UserId, i: nat := 0): (k: int)
    requires i <= |s|
    ensures k == -1 || i <= k < |s|
    ensures k >= 0 ==> s[k].userId != u && forall j :: i <= j < k ==> s[j].userId == u
    ensures k == -1 ==> forall j :: i <= j < |s| ==> s[j].userId == u
    decreases |s| - i
  {
    if i == |s| then -1 else if s[i].userId != u then i else FirstOther(s, u, i + 1)
  }

  /** The entries of u, in their order. */
  function Matching(s: seq<Entry>, u: UserId): (r: seq<Entry>)
    ensures forall i :: 0 <= i < |r| ==> r[i].userId == u
  {
    if s == [] then []
    else Matching(s[..|s| - 1], u) + (if s[|s| - 1].userId == u then [s[|s| - 1]] else [])
  }

  /** The entries of everybody else, in their order. */
  function Others(s: seq<Entry>, u: UserId): (r: seq<Entry>)
    ensures forall i :: 0 <= i < |r| ==> r[i].userId != u
  {
    if s == [] then []
    else Others(s[..|s| - 1], u) + (if s[|s| - 1].userId != u then [s[|s| - 1]] else [])
  }

  /** Filtering splits a list: every entry goes to exactly one side. */
  lemma {:induction false} Partition(s: seq<Entry>, u: UserId)
    ensures multiset(Matching(s, u)) + multiset(Others(s, u)) == multiset(s)
  {
    if s != [] {
      Partition(s[..|s| - 1], u);
      assert s == s[..|s| - 1] + [s[|s| - 1]];
    }
  }

  /** Filtering keeps the order: the others of two lists one after the other
      are the others of the first followed by the others of the second. */
  lemma {:induction false} OthersAppend(a: seq<Entry>, b: seq<Entry>, u: UserId)
    ensures Others(a + b, u) == Others(a, u) + Others(b, u)
    decreases |b|
  {
    if b != [] {
      var b' := b[..|b| - 1];
      assert (a + b)[..|a + b| - 1] == a + b';
      OthersAppend(a, b', u);
    } else {
      assert a + b == a;
    }
  }

  /** A list without entries of u is left exactly as it is. */
  lemma {:induction false} OthersOfNone(s: seq<Entry>, u: UserId)
    requires forall i :: 0 <= i < |s| ==> s[i].userId != u
    ensures Others(s, u) == s
  {
    if s != [] {
      OthersOfNone(s[..|s| - 1], u);
    }
  }

  /** The entries of u under the keys ks, key by key. */
  function Collect(q: map<string, seq<Entry>>, ks: seq<string>, u: UserId): (r: seq<Entry>)
    requires forall i :: 0 <= i < |ks| ==> ks[i] in q
  {
    if ks == [] then []
    else Collect(q, ks[..|ks| - 1], u) + Matching(q[ks[|ks| - 1]], u)
  }

  /** An entry is collected exactly when it belongs to u and is listed under one of the keys. */
  lemma {:induction false} CollectExactly(q: map<string, seq<Entry>>, ks: seq<string>, u: UserId, e: Entry)
    requires forall i :: 0 <= i < |ks| ==> ks[i] in q
    ensures e in Collect(q, ks, u) <==> e.userId == u && exists i :: 0 <= i < |ks| && e in q[ks[i]]
  {
    if ks != [] {
      var ks' := ks[..|ks| - 1];
      var k := ks[|ks| - 1];
      CollectExactly(q, ks', u, e);
      MatchingExactly(q[k], u, e);
      if e.userId == u && e in q[k] {
        assert e in q[ks[|ks| - 1]];
      }
      if e.userId == u && exists i :: 0 <= i < |ks| && e in q[ks[i]] {
        var i :| 0 <= i < |ks| && e in q[ks[i]];
        if i < |ks| - 1 {
          assert ks'[i] == ks[i];
        }
      }
    }
  }

  /** An entry is matched exactly when it belongs to u and is in the list. */
  lemma {:induction false} MatchingExactly(s: seq<Entry>, u: UserId, e: Entry)
    ensures e in Matching(s, u) <==> e.userId == u && e in s
  {
    if s != [] {
      MatchingExactly(s[..|s| - 1], u, e);
      assert s == s[..|s| - 1] + [s[|s| - 1]];
    }
  }

  /** The keys of ks whose list keeps an entry once u's are gone, in order. */
  function Kept(q: map<string, seq<Entry>>, ks: seq<string>, u: UserId): seq<string>
    requires forall i :: 0 <= i < |ks| ==> ks[i] in q
  {
    if ks == [] then []
    else Kept(q, ks[..|ks| - 1], u) + (if Others(q[ks[|ks| - 1]], u) != [] then [ks[|ks| - 1]] else [])
  }

  /** A key is kept exactly when it is one of ks and its list keeps an entry;
      a list of keys without repeats stays without repeats. */
  lemma {:induction false} KeptKeys(q: map<string, seq<Entry>>, ks: seq<string>, u: UserId)
    requires forall i :: 0 <= i < |ks| ==> ks[i] in q
    ensures forall k :: k in Kept(q, ks, u) <==> k in ks && Others(q[k], u) != []
    ensures NoDup(ks) ==> NoDup(Kept(q, ks, u))
  {
    if ks != [] {
      var k := ks[|ks| - 1];
      var ks' := ks[..|ks| - 1];
      KeptKeys(q, ks', u);
      assert forall j :: j in ks <==> j in ks' || j == k;
      KeyAt(ks, |ks| - 1);
    }
  }

  /** One more key is kept exactly when its list keeps an entry. */
  lemma KeptStep(q: map<string, seq<Entry>>, ks: seq<string>, i: nat, u: UserId)
    requires forall j :: 0 <= j < |ks| ==> ks[j] in q
    requires i < |ks|
    ensures Kept(q, ks[..i + 1], u) == Kept(q, ks[..i], u) + (if Others(q[ks[i]], u) != [] then [ks[i]] else [])
  {
    assert ks[..i + 1][..i] == ks[..i];
  }

  /** The iteration order after one more key of `removeUser`: the key is
      deleted where it stands when its list is left empty, and stays put otherwise. */
  lemma OrderStep(q: map<string, seq<Entry>>, keys: seq<string>, i: nat, u: UserId, order: seq<string>)
    requires forall j :: 0 <= j < |keys| ==> keys[j] in q
    requires NoDup(keys) && i < |keys|
    requires order == Kept(q, keys[..i], u) + keys[i..]
    ensures Others(q[keys[i]], u) == [] ==> RemoveKey(order, keys[i]) == Kept(q, keys[..i + 1], u) + keys[i + 1..]
    ensures Others(q[keys[i]], u) != [] ==> order == Kept(q, keys[..i + 1], u) + keys[i + 1..]
  {
    var k := keys[i];
    var before := Kept(q, keys[..i], u);
    var rest := keys[i + 1..];
    assert k !in before && k !in rest by {
      KeyAt(keys, i);
      KeptKeys(q, keys[..i], u);
    }
    assert order == before + [k] + rest by {
      KeyAt(keys, i);
    }
    assert Kept(q, keys[..i + 1], u) == before + (if Others(q[k], u) != [] then [k] else []) by {
      KeptStep(q, keys, i, u);
    }
    OrderSplice(before, k, rest, order, Kept(q, keys[..i + 1], u), Others(q[k], u) != []);
  }

  /** The splice behind OrderStep: a key standing once between two runs is
      either deleted from there or kept in place. */
  lemma OrderSplice(before: seq<string>, k: string, rest: seq<string>, order: seq<string>, kept: seq<string>, keeps: bool)
    requires k !in before && k !in rest
    requires order == before + [k] + rest
    requires kept == before + (if keeps then [k] else [])
    ensures !keeps ==> RemoveKey(order, k) == kept + rest
    ensures keeps ==> order == kept + rest
  {
    if !keeps {
      RemoveKeyAt(before, k, rest);
      assert kept == before;
    }
  }

  /** The queue part-way through `removeUser`: the lists under the keys ks
      are filtered (and dropped when left empty), the others untouched. */
  function PurgedUpTo(q: map<string, seq<Entry>>, ks: seq<string>, u: UserId): map<string, seq<Entry>> {
    map k | k in q && (k in ks ==> Others(q[k], u) != []) :: if k in ks then Others(q[k], u) else q[k]
  }

  /** One more key of `removeUser`: its list is still the original one, and
      its entries of u are collected after the earlier ones. */
  lemma CollectStep(q: map<string, seq<Entry>>, keys: seq<string>, i: nat, u: UserId)
    requires forall j :: 0 <= j < |keys| ==> keys[j] in q
    requires NoDup(keys) && i < |keys|
    ensures var p := PurgedUpTo(q, keys[..i], u);
      && keys[i] in p && p[keys[i]] == q[keys[i]]
      && Collect(q, keys[..i + 1], u) == Collect(q, keys[..i], u) + Matching(q[keys[i]], u)
  {
    KeyAt(keys, i);
    assert keys[..i + 1][..i] == keys[..i];
  }

  /** ... and its list is replaced by the others' entries, or deleted when there are none. */
  lemma PurgeStep(q: map<string, seq<Entry>>, keys: seq<string>, i: nat, u: UserId)
    requires forall j :: 0 <= j < |keys| ==> keys[j] in q
    requires i < |keys|
    ensures var k := keys[i];
      var p := PurgedUpTo(q, keys[..i], u);
      var p' := PurgedUpTo(q, keys[..i + 1], u);
      && (Others(q[k], u) == [] ==> p' == p - {k})
      && (Others(q[k], u) != [] ==> p' == p[k := Others(q[k], u)])
  {
    var k := keys[i];
    assert keys[..i + 1] == keys[..i] + [k];
    assert forall x :: x in keys[..i + 1] <==> x in keys[..i] || x == k;
  }

  /** Once every key has been visited, the queue is the purged one. */
  lemma PurgedAll(q: map<string, seq<Entry>>, keys: seq<string>, u: UserId)
    requires forall k :: k in q ==> k in keys
    ensures PurgedUpTo(q, keys[..|keys|], u) == Purged(q, u)
  {
    assert keys[..|keys|] == keys;
  }

  /** The queue and iteration order `removeUser` leaves behind fit together
      as a queue's must (no empty list, the same keys, each once), and no
      entry of u is left. */
  lemma PurgedKept(q: map<string, seq<Entry>>, keys: seq<string>, u: UserId)
    requires forall k :: k in q <==> k in keys
    requires NoDup(keys)
    ensures var p, o := Purged(q, u), Kept(q, keys, u);
      && (forall k :: k in p ==> p[k] != [])
      && (forall k :: k in p ==> forall i :: 0 <= i < |p[k]| ==> p[k][i].userId != u)
      && (forall k :: k in p <==> k in o)
      && NoDup(o)
  {
    KeptKeys(q, keys, u);
  }

  /** The state of `removeUser` after visiting the first i keys: u's entries
      under them collected, their lists purged and their emptied keys deleted
      from the order, everything else untouched. */
  ghost predicate Visited(q0: map<string, seq<Entry>>, keys: seq<string>, i: nat, u: UserId,
                          removed: seq<Entry>, order: seq<string>, q: map<string, seq<Entry>>)
  {
    && i <= |keys|
    && NoDup(keys)
    && (forall j :: 0 <= j < |keys| ==> keys[j] in q0)
    && removed == Collect(q0, keys[..i], u)
    && order == Kept(q0, keys[..i], u) + keys[i..]
    && q == PurgedUpTo(q0, keys[..i], u)
  }

  /** Before the first key of `removeUser`: nothing collected, nothing changed. */
  lemma RemoveStart(q: map<string, seq<Entry>>, keys: seq<string>, u: UserId)
    requires forall k :: k in q <==> k in keys
    requires NoDup(keys)
    ensures Visited(q, keys, 0, u, [], keys, q)
  {
    assert keys[..0] == [];
  }

  /** After the last key of `removeUser`: u's entries are all collected, the
      queue is the purged one, and it fits the order left behind. */
  lemma RemoveEnd(q0: map<string, seq<Entry>>, keys: seq<string>, u: UserId,
                  removed: seq<Entry>, order: seq<string>, q: map<string, seq<Entry>>)
    requires forall k :: k in q0 <==> k in keys
    requires Visited(q0, keys, |keys|, u, removed, order, q)
    ensures removed == Collect(q0, keys, u)
    ensures q == Purged(q0, u)
    ensures order == Kept(q0, keys, u)
    ensures forall k :: k in q ==> q[k] != []
    ensures forall k :: k in q <==> k in order
    ensures NoDup(order)
  {
    assert keys[..|keys|] == keys && keys[|keys|..] == [];
    PurgedAll(q0, keys, u);
    PurgedKept(q0, keys, u);
  }

  /** The queue after u has left: u's entries gone, and keys left without entries gone. */
  function Purged(q: map<string, seq<Entry>>, u: UserId): map<string, seq<Entry>> {
    map k | k in q && Others(q[k], u) != [] :: Others(q[k], u)
  }

  predicate NoDup(s: seq<string>) {
    forall i, j :: 0 <= i < j < |s| ==> s[i] != s[j]
  }

  /** `order` without the key k. */
  function RemoveKey(s: seq<string>, k: string): seq<string> {
    if s == [] then [] else (if s[0] == k then [] else [s[0]]) + RemoveKey(s[1..], k)
  }

  /** Deleting k keeps every other key and adds no repeat. */
  lemma {:induction false} RemoveKeyKeys(s: seq<string>, k: string)
    ensures forall x :: x in RemoveKey(s, k) <==> x in s && x != k
    ensures NoDup(s) ==> NoDup(RemoveKey(s, k))
  {
    if s != [] {
      RemoveKeyKeys(s[1..], k);
      assert forall x :: x in s <==> x == s[0] || x in s[1..];
      KeyAt(s, 0);
    }
  }

  /** Deleting a key that occurs once takes it out where it stands. */
  lemma {:induction false} RemoveKeyAt(a: seq<string>, k: string, b: seq<string>)
    requires k !in a && k !in b
    ensures RemoveKey(a + [k] + b, k) == a + b
  {
    if a == [] {
      assert ([k] + b)[1..] == b;
      RemoveKeyAbsent(b, k);
    } else {
      assert (a + [k] + b)[1..] == a[1..] + [k] + b;
      RemoveKeyAt(a[1..], k, b);
      assert a + b == [a[0]] + (a[1..] + b);
    }
  }

  lemma {:induction false} RemoveKeyAbsent(s: seq<string>, k: string)
    requires k !in s
    ensures RemoveKey(s, k) == s
  {
    if s != [] {
      RemoveKeyAbsent(s[1..], k);
    }
  }

  /** `MatchmakingQueue`. */
  class MatchmakingQueue {
    /** The `Map` from key to the FIFO list of waiting entries. */
    var q: map<string, seq<Entry>>
    /** The keys of the `Map` in its iteration order: the order they were first set. */
    var order: seq<string>

    /** Every listed key has a waiting entry, and `order` lists each key once. */
    ghost predicate Valid()
      reads this
    {
      && (forall k :: k in q ==> q[k] != [])
      && (forall k :: k in q <==> k in order)
      && NoDup(order)
    }

    constructor ()
      ensures Valid() && q == map[] && order == []
    {
      q := map[];
      order := [];
    }

    /** `Map.set`: a new key goes to the end of the iteration order, an existing one keeps its place. */
    method Set(k: string, v: seq<Entry>)
      modifies this
      ensures q == old(q)[k := v]
      ensures order == if k in old(q) then old(order) else old(order) + [k]
    {
      if k !in q {
        order := order + [k];
      }
      q := q[k := v];
    }

    /** `Map.delete`. */
    method Delete(k: string)
      modifies this
      ensures q == old(q) - {k}
      ensures order == RemoveKey(old(order), k)
    {
      q := q - {k};
      order := RemoveKey(order, k);
    }

    /** `enqueue`: the entry goes to the end of its key's list; no other list changes. */
    method Enqueue(key: string, entry: Entry)
      requires Valid()
      modifies this
      ensures Valid()
      ensures q == old(q)[key := (if key in old(q) then old(q)[key] else []) + [entry]]
      ensures order == if key in old(q) then old(order) else old(order) + [key]
    {
      var arr := if key in q then q[key] else [];
      arr := arr + [entry];
      Set(key, arr);
    }

    /** `dequeueOther`: the first entry of the key's list that is not the
        requester's is taken out and returned; when there is none, nothing changes. */
    method DequeueOther(key: string, u: UserId) returns (picked: Option<Entry>)
      requires Valid()
      modifies this
      ensures Valid()
      ensures picked.Some? <==> key in old(q) && FirstOther(old(q)[key], u) >= 0
      ensures picked.None? ==> q == old(q) && order == old(order)
      ensures picked.Some? ==>
        var s := old(q)[key];
        var i := FirstOther(s, u);
        var rest := s[..i] + s[i + 1..];
        && picked.value == s[i]
        && (rest == [] ==> q == old(q) - {key} && order == RemoveKey(old(order), key))
        && (rest != [] ==> q == old(q)[key := rest] && order == old(order))
    {
      if key !in q || q[key] == [] {
        return None;
      }
      var arr := q[key];
      var idx := FirstOther(arr, u);
      if idx == -1 {
        return None;
      }
      picked := Some(arr[idx]);
      arr := arr[..idx] + arr[idx + 1..];
      if arr == [] {
        RemoveKeyKeys(order, key);
        Delete(key);
      } else {
        Set(key, arr);
      }
    }

    /** The inner loop of `removeUser`: the list split into u's entries and
        the others', each in its order. */
    static method Sift(arr: seq<Entry>, u: UserId) returns (mine: seq<Entry>, keep: seq<Entry>)
      ensures mine == Matching(arr, u) && keep == Others(arr, u)
    {
      mine, keep := [], [];
      for j := 0 to |arr|
        invariant mine == Matching(arr[..j], u)
        invariant keep == Others(arr[..j], u)
      {
        assert arr[..j + 1][..j] == arr[..j];
        var e := arr[j];
        if e.userId == u {
          mine := mine + [e];
        } else {
          keep := keep + [e];
        }
      }
      assert arr[..|arr|] == arr;
    }

    /** One key of `removeUser`: u's entries under k are taken out and
        returned, and the key is deleted when nothing else is left under it. */
    method PurgeKey(k: string, u: UserId) returns (mine: seq<Entry>)
      requires k in q
      modifies this
      ensures mine == Matching(old(q)[k], u)
      ensures Others(old(q)[k], u) == [] ==> q == old(q) - {k} && order == RemoveKey(old(order), k)
      ensures Others(old(q)[k], u) != [] ==> q == old(q)[k := Others(old(q)[k], u)] && order == old(order)
    {
      var keep;
      mine, keep := Sift(q[k], u);
      if keep == [] {
        Delete(k);
      } else {
        Set(k, keep);
      }
    }

    /** One iteration of `removeUser`: keys[i] is visited with the queue,
        the order and the entries collected as the earlier iterations left them. */
    method Visit(ghost q0: map<string, seq<Entry>>, keys: seq<string>, i: nat, u: UserId, removed: seq<Entry>)
      returns (removed': seq<Entry>)
      requires Visited(q0, keys, i, u, removed, order, q) && i < |keys|
      modifies this
      ensures Visited(q0, keys, i + 1, u, removed', order, q)
    {
      CollectStep(q0, keys, i, u);
      PurgeStep(q0, keys, i, u);
      OrderStep(q0, keys, i, u, order);
      var mine := PurgeKey(keys[i], u);
      removed' := removed + mine;
    }

    /** `removeUser`: every entry of u is taken out, key by key in the
        iteration order, and returned; keys left without entries are deleted. */
    method RemoveUser(u: UserId) returns (removed: seq<Entry>)
      requires Valid()
      modifies this
      ensures Valid()
      ensures removed == Collect(old(q), old(order), u)
      ensures q == Purged(old(q), u)
      ensures order == Kept(old(q), old(order), u)
    {
      ghost var q0 := q;
      var keys := order;
      removed := [];
      RemoveStart(q0, keys, u);
      for i := 0 to |keys|
        invariant Visited(q0, keys, i, u, removed, order, q)
      {
        removed := Visit(q0, keys, i, u, removed);
      }
      RemoveEnd(q0, keys, u, removed, order, q);
    }
  }

  /** Where a key stands: at its index, and in a list without repeats nowhere else. */
  lemma KeyAt(keys: seq<string>, i: nat)
    requires i < |keys|
    ensures keys[..i + 1] == keys[..i] + [keys[i]] && keys[i..] == [keys[i]] + keys[i + 1..]
    ensures NoDup(keys) ==>
      && keys[i] !in keys[..i] && keys[i] !in keys[i + 1..]
      && NoDup(keys[..i]) && NoDup(keys[i + 1..])
  {
    assert forall j :: 0 <= j < i ==> keys[..i][j] == keys[j];
    assert forall j :: i + 1 <= j < |keys| ==> keys[i + 1..][j - i - 1] == keys[j];
  }
}
