/** The sharded prompt-cache store as one least-recently-used cache (proxy/cache_tracker.go). */
module CacheLru {
  import opened Common

  type Fingerprint = nat

  datatype Key = Key(account: string, fingerprint: Fingerprint)

  /** Instants and lifetimes are milliseconds. */
  datatype Entry = Entry(expiresAt: int, ttl: int, lastAccess: int)

  /** Entries by account and fingerprint, and two kinds of lists, newest first. */
  datatype Shard = Shard(
    entries: map<string, map<Fingerprint, Entry>>,
    accountOrder: map<string, seq<Fingerprint>>,
    order: seq<Key>)

  const EMPTY := Shard(map[], map[], [])

  // ---------------------------------------------------------------------- lists

  /** A list without one element. */
  function Without<T(==)>(s: seq<T>, x: T): seq<T> {
    if s == [] then [] else
      var rest := Without(s[1..], x);
      if s[0] == x then rest else [s[0]] + rest
  }

  /** The fingerprints of one account, in order. */
  function Project(order: seq<Key>, account: string): seq<Fingerprint> {
    if order == [] then [] else
      var rest := Project(order[1..], account);
      if order[0].account == account then [order[0].fingerprint] + rest else rest
  }

  predicate Distinct<T(==)>(s: seq<T>) {
    forall i, j :: 0 <= i < j < |s| ==> s[i] != s[j]
  }

  /** Newest first. */
  predicate Descending(order: seq<Key>, age: map<Key, int>) {
    && (forall k :: k in order ==> k in age)
    && forall i, j :: 0 <= i < j < |order| ==> age[order[i]] >= age[order[j]]
  }

  lemma {:induction false} WithoutMember<T>(s: seq<T>, x: T, y: T)
    ensures y in Without(s, x) <==> y in s && y != x
  {
    if s != [] {
      assert s == [s[0]] + s[1..];
      WithoutMember(s[1..], x, y);
    }
  }

  lemma {:induction false} HeadNotInTail<T>(s: seq<T>)
    requires Distinct(s) && s != []
    ensures s[0] !in s[1..]
  {
    forall i | 0 <= i < |s[1..]| ensures s[1..][i] != s[0] {
      assert s[1..][i] == s[i + 1];
    }
  }

  lemma {:induction false} WithoutLength<T>(s: seq<T>, x: T)
    requires Distinct(s)
    ensures |Without(s, x)| == |s| - if x in s then 1 else 0
  {
    if s != [] {
      assert s == [s[0]] + s[1..];
      assert forall i, j :: 0 <= i < j < |s[1..]| ==> s[1..][i] == s[i + 1] && s[1..][j] == s[j + 1];
      WithoutLength(s[1..], x);
      HeadNotInTail(s);
    }
  }

  lemma {:induction false} WithoutDistinct<T>(s: seq<T>, x: T)
    requires Distinct(s)
    ensures Distinct(Without(s, x))
  {
    if s != [] {
      assert forall i, j :: 0 <= i < j < |s[1..]| ==> s[1..][i] == s[i + 1] && s[1..][j] == s[j + 1];
      WithoutDistinct(s[1..], x);
      var rest := Without(s[1..], x);
      if s[0] != x {
        PrependDistinct(s, rest, x);
      }
    }
  }

  lemma {:induction false} PrependDistinct<T>(s: seq<T>, rest: seq<T>, x: T)
    requires Distinct(s) && s != [] && rest == Without(s[1..], x) && Distinct(rest)
    ensures Distinct([s[0]] + rest)
  {
    forall j | 0 <= j < |rest| ensures rest[j] != s[0] {
      WithoutMember(s[1..], x, rest[j]);
      assert rest[j] in rest;
      var i :| 0 <= i < |s[1..]| && s[1..][i] == rest[j];
      assert s[i + 1] == rest[j];
    }
  }

  lemma {:induction false} WithoutDescending(s: seq<Key>, x: Key, age: map<Key, int>)
    requires Descending(s, age)
    ensures Descending(Without(s, x), age)
  {
    if s != [] {
      TailDescending(s, age);
      WithoutDescending(s[1..], x, age);
      var rest := Without(s[1..], x);
      if s[0] != x {
        forall j | 0 <= j < |rest| ensures age[s[0]] >= age[rest[j]] {
          WithoutMember(s[1..], x, rest[j]);
          assert rest[j] in rest;
          var i :| 0 <= i < |s[1..]| && s[1..][i] == rest[j];
          assert s[i + 1] == rest[j];
        }
        PrependDescending(s[0], rest, age);
      }
    }
  }

  lemma {:induction false} TailDescending(s: seq<Key>, age: map<Key, int>)
    requires Descending(s, age) && s != []
    ensures Descending(s[1..], age) && s[0] in age
  {
    assert forall i :: 0 <= i < |s[1..]| ==> s[1..][i] == s[i + 1];
    assert s[0] in s;
    forall k | k in s[1..] ensures k in age {
      assert k in s;
    }
  }

  lemma {:induction false} PrependDescending(k: Key, rest: seq<Key>, age: map<Key, int>)
    requires Descending(rest, age) && k in age
    requires forall j :: 0 <= j < |rest| ==> rest[j] in age && age[k] >= age[rest[j]]
    ensures Descending([k] + rest, age)
  {
    var s := [k] + rest;
    forall i, j | 0 <= i < j < |s| ensures s[i] in age && s[j] in age && age[s[i]] >= age[s[j]] {
      assert s[j] == rest[j - 1];
      if i > 0 {
        assert s[i] == rest[i - 1];
      }
    }
  }

  lemma {:induction false} ProjectMember(order: seq<Key>, account: string, f: Fingerprint)
    ensures f in Project(order, account) <==> Key(account, f) in order
  {
    if order != [] {
      assert order == [order[0]] + order[1..];
      ProjectMember(order[1..], account, f);
    }
  }

  lemma {:induction false} ProjectWithout(order: seq<Key>, k: Key, account: string)
    ensures Project(Without(order, k), account)
         == if account == k.account then Without(Project(order, account), k.fingerprint) else Project(order, account)
  {
    if order != [] {
      ProjectWithout(order[1..], k, account);
      var rest := Without(order[1..], k);
      if order[0] != k {
        assert ([order[0]] + rest)[1..] == rest;
      }
      if order[0].account == account {
        var p := Project(order[1..], account);
        assert ([order[0].fingerprint] + p)[1..] == p;
      }
    }
  }

  lemma {:induction false} ProjectPrepend(k: Key, order: seq<Key>, account: string)
    ensures Project([k] + order, account) == if account == k.account then [k.fingerprint] + Project(order, account)
        else Project(order, account)
  {
    assert ([k] + order)[1..] == order;
  }

  /** The last key of an account in the shard's list is the last of the account's list. */
  lemma {:induction false} ProjectLast(order: seq<Key>, account: string) returns (at: nat)
    requires Project(order, account) != []
    ensures at < |order| && order[at] == Key(account, Project(order, account)[|Project(order, account)| - 1])
    ensures forall i :: at < i < |order| ==> order[i].account != account
  {
    var rest := Project(order[1..], account);
    if rest == [] {
      at := 0;
      forall i | 0 < i < |order| ensures order[i].account != account {
        ProjectMember(order[1..], account, order[i].fingerprint);
        assert order[1..][i - 1] == order[i];
      }
    } else {
      var j := ProjectLast(order[1..], account);
      at := j + 1;
      forall i | at < i < |order| ensures order[i].account != account {
        assert order[1..][i - 1] == order[i];
      }
    }
  }

  // --------------------------------------------------------------------- shards

  predicate Has(sh: Shard, k: Key) {
    k.account in sh.entries && k.fingerprint in sh.entries[k.account]
  }

  function Get(sh: Shard, k: Key): Entry
    requires Has(sh, k)
  {
    sh.entries[k.account][k.fingerprint]
  }

  function Age(sh: Shard, k: Key): int {
    if Has(sh, k) then Get(sh, k).lastAccess else 0
  }

  function Ages(sh: Shard): map<Key, int> {
    map k | k in sh.order :: Age(sh, k)
  }

  /** Maps and lists hold the same entries exactly once; an account's list is its part of the shard's. */
  ghost predicate ShardOk(sh: Shard) {
    && Distinct(sh.order)
    && (forall k :: k in sh.order <==> Has(sh, k))
    && sh.accountOrder.Keys == sh.entries.Keys
    && (forall a :: a in sh.entries ==> sh.accountOrder[a] == Project(sh.order, a) && sh.accountOrder[a] != [])
  }

  /** Both kinds of lists are newest first, an account's list being part of the shard's. */
  ghost predicate NewestFirst(sh: Shard) {
    Descending(sh.order, Ages(sh))
  }

  lemma {:induction false} DescendingAgrees(s: seq<Key>, age: map<Key, int>, other: map<Key, int>)
    requires Descending(s, age) && forall k :: k in s ==> k in other && other[k] == age[k]
    ensures Descending(s, other)
  {
    forall i, j | 0 <= i < j < |s| ensures other[s[i]] >= other[s[j]] {
      assert s[i] in s && s[j] in s;
    }
  }

  /** Adds or refreshes an entry at the front of both lists. */
  function Stored(sh: Shard, k: Key, e: Entry): Shard {
    var a, f := k.account, k.fingerprint;
    var held := if a in sh.entries then sh.entries[a] else map[];
    var list := if a in sh.accountOrder then sh.accountOrder[a] else [];
    Shard(sh.entries[a := held[f := e]], sh.accountOrder[a := [f] + Without(list, f)], [k] + Without(sh.order, k))
  }

  /** Takes an entry out of the map and both lists; an account without entries disappears. */
  function Dropped(sh: Shard, k: Key): Shard {
    var a, f := k.account, k.fingerprint;
    var list := if a in sh.accountOrder then sh.accountOrder[a] else [];
    if !Has(sh, k) then sh
    else if sh.entries[a] - {f} == map[] then Shard(sh.entries - {a}, sh.accountOrder - {a}, Without(sh.order, k))
    else Shard(sh.entries[a := sh.entries[a] - {f}], sh.accountOrder[a := Without(list, f)], Without(sh.order, k))
  }

  lemma {:induction false} StoredHas(sh: Shard, k: Key, e: Entry, x: Key)
    ensures Has(Stored(sh, k, e), x) <==> x == k || Has(sh, x)
    ensures Has(Stored(sh, k, e), x) ==> Get(Stored(sh, k, e), x) == if x == k then e else Get(sh, x)
  {
  }

  lemma {:induction false} DroppedHas(sh: Shard, k: Key, x: Key)
    ensures Has(Dropped(sh, k), x) <==> x != k && Has(sh, x)
    ensures Has(Dropped(sh, k), x) ==> Get(Dropped(sh, k), x) == Get(sh, x)
  {
    if Has(sh, k) && sh.entries[k.account] - {k.fingerprint} == map[] && x.account == k.account && x != k {
      assert x.fingerprint !in sh.entries[k.account] - {k.fingerprint};
    }
  }

  lemma {:induction false} MissingAccount(sh: Shard, a: string)
    requires ShardOk(sh) && a !in sh.entries
    ensures Project(sh.order, a) == []
  {
    var p := Project(sh.order, a);
    if p != [] {
      ProjectMember(sh.order, a, p[0]);
    }
  }

  lemma {:induction false} StoredListed(sh: Shard, k: Key, e: Entry, a: string)
    requires ShardOk(sh) && (a == k.account || a in sh.entries)
    ensures Stored(sh, k, e).accountOrder[a] == Project(Stored(sh, k, e).order, a)
  {
    ProjectPrepend(k, Without(sh.order, k), a);
    ProjectWithout(sh.order, k, a);
    if a !in sh.entries {
      MissingAccount(sh, a);
    }
  }

  /** Nothing else in the shard was used later. */
  ghost predicate NotBehind(sh: Shard, k: Key, now: int) {
    forall x :: Has(sh, x) && x != k ==> Get(sh, x).lastAccess <= now
  }

  lemma {:induction false} RestAgrees(sh: Shard, k: Key, e: Entry, x: Key)
    requires ShardOk(sh) && x in Without(sh.order, k)
    ensures var t := Stored(sh, k, e);
      && x in sh.order && x != k && Has(sh, x) && x in Ages(sh) && x in Ages(t)
      && Ages(t)[x] == Ages(sh)[x] == Get(sh, x).lastAccess
  {
    WithoutMember(sh.order, k, x);
    StoredHas(sh, k, e, x);
    assert x in Stored(sh, k, e).order;
  }

  lemma {:induction false} FrontAge(sh: Shard, k: Key, e: Entry)
    ensures var t := Stored(sh, k, e); t.order[0] == k && k in Ages(t) && Ages(t)[k] == e.lastAccess
  {
    StoredHas(sh, k, e, k);
    assert k in Stored(sh, k, e).order;
  }

  lemma {:induction false} StoredDescending(sh: Shard, k: Key, e: Entry)
    requires ShardOk(sh) && NewestFirst(sh) && NotBehind(sh, k, e.lastAccess)
    ensures NewestFirst(Stored(sh, k, e))
  {
    var t := Stored(sh, k, e);
    var rest := Without(sh.order, k);
    WithoutDescending(sh.order, k, Ages(sh));
    forall x | x in rest ensures x in Ages(sh) && x in Ages(t) && Ages(t)[x] == Ages(sh)[x] <= e.lastAccess {
      RestAgrees(sh, k, e, x);
    }
    DescendingAgrees(rest, Ages(sh), Ages(t));
    FrontAge(sh, k, e);
    assert forall j :: 0 <= j < |rest| ==> rest[j] in rest;
    PrependDescending(k, rest, Ages(t));
  }

  lemma {:induction false} StoredBehind(sh: Shard, k: Key, e: Entry, x: Key)
    requires ShardOk(sh) && NewestFirst(Stored(sh, k, e)) && Has(sh, x) && x != k
    ensures Get(sh, x).lastAccess <= e.lastAccess
  {
    var t := Stored(sh, k, e);
    WithoutMember(sh.order, k, x);
    RestAgrees(sh, k, e, x);
    FrontAge(sh, k, e);
    var rest := Without(sh.order, k);
    var j :| 0 <= j < |rest| && rest[j] == x;
    assert t.order[j + 1] == x;
  }

  /** A store leaves the lists newest first exactly if nothing else in the shard was used later. */
  lemma {:induction false} StoredNewestFirstIff(sh: Shard, k: Key, e: Entry)
    requires ShardOk(sh) && NewestFirst(sh)
    ensures NewestFirst(Stored(sh, k, e)) <==> NotBehind(sh, k, e.lastAccess)
  {
    if NotBehind(sh, k, e.lastAccess) {
      StoredDescending(sh, k, e);
    }
    if NewestFirst(Stored(sh, k, e)) {
      forall x | Has(sh, x) && x != k ensures Get(sh, x).lastAccess <= e.lastAccess {
        StoredBehind(sh, k, e, x);
      }
    }
  }

  lemma {:induction false} FrontDistinct(k: Key, rest: seq<Key>)
    requires Distinct(rest) && k !in rest
    ensures Distinct([k] + rest)
  {
    assert forall j :: 0 <= j < |rest| ==> rest[j] in rest;
  }

  lemma {:induction false} StoredMembers(sh: Shard, k: Key, e: Entry)
    requires ShardOk(sh)
    ensures forall x :: x in Stored(sh, k, e).order <==> Has(Stored(sh, k, e), x)
  {
    var t := Stored(sh, k, e);
    forall x ensures x in t.order <==> Has(t, x) {
      StoredHas(sh, k, e, x);
      WithoutMember(sh.order, k, x);
    }
  }

  /** Storing, at whatever instant, keeps the maps and lists of a shard in agreement. */
  lemma {:induction false} StoredOk(sh: Shard, k: Key, e: Entry)
    requires ShardOk(sh)
    ensures ShardOk(Stored(sh, k, e))
    ensures |Stored(sh, k, e).order| == |sh.order| + if Has(sh, k) then 0 else 1
  {
    WithoutLength(sh.order, k);
    WithoutDistinct(sh.order, k);
    WithoutMember(sh.order, k, k);
    FrontDistinct(k, Without(sh.order, k));
    StoredMembers(sh, k, e);
    forall a | a == k.account || a in sh.entries
      ensures Stored(sh, k, e).accountOrder[a] == Project(Stored(sh, k, e).order, a)
    {
      StoredListed(sh, k, e, a);
    }
    assert forall a :: a in sh.entries ==> sh.accountOrder[a] != [];
  }

  lemma {:induction false} DroppedDescending(sh: Shard, k: Key)
    requires ShardOk(sh) && NewestFirst(sh) && Has(sh, k)
    ensures NewestFirst(Dropped(sh, k))
  {
    var t := Dropped(sh, k);
    WithoutDescending(sh.order, k, Ages(sh));
    forall x | x in t.order ensures Ages(t)[x] == Ages(sh)[x] {
      WithoutMember(sh.order, k, x);
      DroppedHas(sh, k, x);
    }
    forall x | x in t.order ensures x in Ages(sh) {
      WithoutMember(sh.order, k, x);
    }
    DescendingAgrees(t.order, Ages(sh), Ages(t));
  }

  lemma {:induction false} DroppedListed(sh: Shard, k: Key, a: string)
    requires ShardOk(sh) && Has(sh, k) && a in Dropped(sh, k).entries
    ensures var t := Dropped(sh, k);
      a in t.accountOrder && t.accountOrder[a] == Project(t.order, a) && t.accountOrder[a] != []
  {
    var t := Dropped(sh, k);
    ProjectWithout(sh.order, k, a);
    if a == k.account {
      var f :| f in sh.entries[a] - {k.fingerprint};
      assert Has(t, Key(a, f)) && Has(sh, Key(a, f));
      WithoutMember(sh.order, k, Key(a, f));
      ProjectMember(t.order, a, f);
    }
  }

  lemma {:induction false} DroppedOk(sh: Shard, k: Key)
    requires ShardOk(sh)
    ensures ShardOk(Dropped(sh, k))
    ensures |Dropped(sh, k).order| == |sh.order| - if Has(sh, k) then 1 else 0
  {
    if Has(sh, k) {
      var t := Dropped(sh, k);
      WithoutLength(sh.order, k);
      WithoutDistinct(sh.order, k);
      forall x ensures x in t.order <==> Has(t, x) {
        DroppedHas(sh, k, x);
        WithoutMember(sh.order, k, x);
      }
      forall a | a in t.entries ensures t.accountOrder[a] == Project(t.order, a) && t.accountOrder[a] != [] {
        DroppedListed(sh, k, a);
      }
    }
  }

  lemma {:induction false} DroppedNewestFirst(sh: Shard, k: Key)
    requires ShardOk(sh) && NewestFirst(sh)
    ensures NewestFirst(Dropped(sh, k))
  {
    if Has(sh, k) {
      DroppedDescending(sh, k);
    }
  }

  /** The back of the shard's list is its least recently used entry. */
  lemma {:induction false} BackIsOldest(sh: Shard, x: Key)
    requires ShardOk(sh) && NewestFirst(sh) && Has(sh, x)
    ensures sh.order != [] && Has(sh, sh.order[|sh.order| - 1])
    ensures Get(sh, sh.order[|sh.order| - 1]).lastAccess <= Get(sh, x).lastAccess
  {
    var i :| 0 <= i < |sh.order| && sh.order[i] == x;
    var back := sh.order[|sh.order| - 1];
    assert back in sh.order;
  }

  /** The back of an account's list is that account's least recently used entry. */
  lemma {:induction false} AccountBackIsOldest(sh: Shard, x: Key)
    requires ShardOk(sh) && NewestFirst(sh) && Has(sh, x)
    ensures var l := sh.accountOrder[x.account];
      var back := Key(x.account, l[|l| - 1]);
      Has(sh, back) && Get(sh, back).lastAccess <= Get(sh, x).lastAccess
  {
    var l := sh.accountOrder[x.account];
    var at := ProjectLast(sh.order, x.account);
    var i :| 0 <= i < |sh.order| && sh.order[i] == x;
    assert sh.order[at] in sh.order;
    assert i <= at;
  }

  function Elements<T>(s: seq<T>): set<T> {
    set x | x in s
  }

  lemma {:induction false} DistinctSize<T>(s: seq<T>)
    requires Distinct(s)
    ensures |Elements(s)| == |s|
  {
    if s != [] {
      assert forall i, j :: 0 <= i < j < |s[1..]| ==> s[1..][i] == s[i + 1] && s[1..][j] == s[j + 1];
      HeadNotInTail(s);
      DistinctSize(s[1..]);
      assert s == [s[0]] + s[1..];
      assert Elements(s) == {s[0]} + Elements(s[1..]);
    }
  }

  // -------------------------------------------------------------------- tracker

  const SHARDS: nat := 64

  /** The shards and the counter that all of them share. */
  datatype Tracker = Tracker(shards: seq<Shard>, count: int)

  function Initial(): Tracker {
    Tracker(seq(SHARDS, i => EMPTY), 0)
  }

  /** Accounts are spread over the shards by a hash of their name. */
  function Home(hash: string -> nat, k: Key): (i: nat)
    ensures i < SHARDS
  {
    hash(k.account) % SHARDS
  }

  function Total(shards: seq<Shard>): nat {
    if shards == [] then 0 else Total(shards[..|shards| - 1]) + |shards[|shards| - 1].order|
  }

  function KeysOf(shards: seq<Shard>): set<Key> {
    if shards == [] then {} else KeysOf(shards[..|shards| - 1]) + Elements(shards[|shards| - 1].order)
  }

  ghost predicate AtHome(shards: seq<Shard>, hash: string -> nat) {
    forall i, k :: 0 <= i < |shards| && k in shards[i].order ==> Home(hash, k) == i
  }

  ghost predicate AllOk(shards: seq<Shard>) {
    forall i :: 0 <= i < |shards| ==> ShardOk(shards[i])
  }

  ghost predicate AllNewestFirst(shards: seq<Shard>) {
    forall i :: 0 <= i < |shards| ==> NewestFirst(shards[i])
  }

  ghost predicate TrackerOk(t: Tracker, hash: string -> nat) {
    |t.shards| == SHARDS && AllOk(t.shards) && AtHome(t.shards, hash) && t.count == Total(t.shards)
  }

  predicate Holds(t: Tracker, hash: string -> nat, k: Key)
    requires |t.shards| == SHARDS
  {
    Has(t.shards[Home(hash, k)], k)
  }

  /** The one cache that the shards stand for. */
  function Contents(t: Tracker, hash: string -> nat): map<Key, Entry>
    requires |t.shards| == SHARDS
  {
    map k | k in KeysOf(t.shards) && Holds(t, hash, k) :: Get(t.shards[Home(hash, k)], k)
  }

  lemma {:induction false} KeysMember(shards: seq<Shard>, k: Key)
    ensures k in KeysOf(shards) <==> exists i :: 0 <= i < |shards| && k in shards[i].order
  {
    if shards != [] {
      var init := shards[..|shards| - 1];
      KeysMember(init, k);
      if i :| 0 <= i < |init| && k in init[i].order {
        assert k in shards[i].order;
      }
      if i :| 0 <= i < |shards| && k in shards[i].order {
        assert i < |init| ==> k in init[i].order;
      }
    }
  }

  function ValueAt(t: Tracker, hash: string -> nat, k: Key): Option<Entry>
    requires |t.shards| == SHARDS
  {
    if Holds(t, hash, k) then Some(Get(t.shards[Home(hash, k)], k)) else None
  }

  function Find(m: map<Key, Entry>, k: Key): Option<Entry> {
    if k in m then Some(m[k]) else None
  }

  /** An entry is in the cache exactly when its account's shard holds it. */
  lemma {:induction false} ContentsMember(t: Tracker, hash: string -> nat, k: Key)
    requires TrackerOk(t, hash)
    ensures k in Contents(t, hash) <==> Holds(t, hash, k)
    ensures Find(Contents(t, hash), k) == ValueAt(t, hash, k)
  {
    KeysMember(t.shards, k);
    if Holds(t, hash, k) {
      assert k in t.shards[Home(hash, k)].order;
    }
  }

  lemma {:induction false} SameFinds(m: map<Key, Entry>, n: map<Key, Entry>)
    requires forall k :: Find(m, k) == Find(n, k)
    ensures m == n
  {
    forall k ensures (k in m <==> k in n) && (k in m && k in n ==> m[k] == n[k]) {
      assert Find(m, k) == Find(n, k);
    }
  }

  lemma {:induction false} KeysSize(shards: seq<Shard>, hash: string -> nat)
    requires AllOk(shards) && AtHome(shards, hash)
    ensures |KeysOf(shards)| == Total(shards)
  {
    if shards != [] {
      var n := |shards| - 1;
      var init, last := shards[..n], shards[n];
      KeysSize(init, hash);
      assert ShardOk(last);
      DistinctSize(last.order);
      LastApart(shards, hash);
    }
  }

  lemma {:induction false} LastApart(shards: seq<Shard>, hash: string -> nat)
    requires AtHome(shards, hash) && shards != []
    ensures KeysOf(shards[..|shards| - 1]) !! Elements(shards[|shards| - 1].order)
  {
    var n := |shards| - 1;
    forall k | k in KeysOf(shards[..n]) ensures k !in Elements(shards[n].order) {
      KeysMember(shards[..n], k);
      var i :| 0 <= i < n && k in shards[..n][i].order;
      assert shards[i].order == shards[..n][i].order;
      assert Home(hash, k) == i;
      assert k in shards[n].order ==> Home(hash, k) == n;
    }
  }

  /** The shared counter is the number of entries in the cache. */
  lemma {:induction false} CountIsSize(t: Tracker, hash: string -> nat)
    requires TrackerOk(t, hash)
    ensures |Contents(t, hash)| == t.count
  {
    forall k ensures k in Contents(t, hash) <==> k in KeysOf(t.shards) {
      ContentsMember(t, hash, k);
      KeysMember(t.shards, k);
    }
    assert Contents(t, hash).Keys == KeysOf(t.shards);
    KeysSize(t.shards, hash);
  }

  lemma {:induction false} TotalUpdate(shards: seq<Shard>, i: nat, sh: Shard)
    requires i < |shards|
    ensures Total(shards[i := sh]) == Total(shards) - |shards[i].order| + |sh.order|
  {
    var n := |shards| - 1;
    if i < n {
      assert shards[i := sh][..n] == shards[..n][i := sh];
      TotalUpdate(shards[..n], i, sh);
    } else {
      assert shards[i := sh][..n] == shards[..n];
    }
  }

  function StoreIn(t: Tracker, hash: string -> nat, k: Key, e: Entry): Tracker
    requires |t.shards| == SHARDS
  {
    var h := Home(hash, k);
    Tracker(t.shards[h := Stored(t.shards[h], k, e)], t.count + if Has(t.shards[h], k) then 0 else 1)
  }

  function DropFrom(t: Tracker, hash: string -> nat, k: Key): Tracker
    requires |t.shards| == SHARDS
  {
    var h := Home(hash, k);
    Tracker(t.shards[h := Dropped(t.shards[h], k)], t.count - if Has(t.shards[h], k) then 1 else 0)
  }

  ghost predicate NoLaterThan(m: map<Key, Entry>, now: int) {
    forall k :: k in m ==> m[k].lastAccess <= now
  }

  lemma {:induction false} ReplacedOk(t: Tracker, hash: string -> nat, h: nat, sh: Shard, count: int)
    requires TrackerOk(t, hash) && h < SHARDS && ShardOk(sh)
    requires forall k :: k in sh.order ==> Home(hash, k) == h
    requires count == t.count - |t.shards[h].order| + |sh.order|
    ensures TrackerOk(Tracker(t.shards[h := sh], count), hash)
  {
    TotalUpdate(t.shards, h, sh);
    var u := t.shards[h := sh];
    forall i, k | 0 <= i < |u| && k in u[i].order ensures Home(hash, k) == i {
      if i != h {
        assert k in t.shards[i].order;
      }
    }
  }

  lemma {:induction false} StoreOk(t: Tracker, hash: string -> nat, k: Key, e: Entry)
    requires TrackerOk(t, hash)
    ensures TrackerOk(StoreIn(t, hash, k, e), hash)
  {
    var h := Home(hash, k);
    var sh := t.shards[h];
    StoredOk(sh, k, e);
    forall x | x in Stored(sh, k, e).order ensures Home(hash, x) == h {
      WithoutMember(sh.order, k, x);
    }
    ReplacedOk(t, hash, h, Stored(sh, k, e), t.count + if Has(sh, k) then 0 else 1);
  }

  lemma {:induction false} DropOk(t: Tracker, hash: string -> nat, k: Key)
    requires TrackerOk(t, hash)
    ensures TrackerOk(DropFrom(t, hash, k), hash)
  {
    var h := Home(hash, k);
    var sh := t.shards[h];
    DroppedOk(sh, k);
    forall x | x in Dropped(sh, k).order ensures Home(hash, x) == h {
      DroppedHas(sh, k, x);
      assert x in sh.order;
    }
    ReplacedOk(t, hash, h, Dropped(sh, k), t.count - if Has(sh, k) then 1 else 0);
  }

  lemma {:induction false} StoreAt(t: Tracker, hash: string -> nat, k: Key, e: Entry, x: Key)
    requires |t.shards| == SHARDS
    ensures ValueAt(StoreIn(t, hash, k, e), hash, x) == if x == k then Some(e) else ValueAt(t, hash, x)
  {
    StoredHas(t.shards[Home(hash, k)], k, e, x);
  }

  /** Storing in a shard is storing in the one cache. */
  lemma {:induction false} StoreRefines(t: Tracker, hash: string -> nat, k: Key, e: Entry)
    requires TrackerOk(t, hash)
    ensures TrackerOk(StoreIn(t, hash, k, e), hash)
    ensures Contents(StoreIn(t, hash, k, e), hash) == Contents(t, hash)[k := e]
  {
    StoreOk(t, hash, k, e);
    var u := StoreIn(t, hash, k, e);
    forall x ensures Find(Contents(u, hash), x) == Find(Contents(t, hash)[k := e], x) {
      StoreFind(t, hash, k, e, u, x);
    }
    SameFinds(Contents(u, hash), Contents(t, hash)[k := e]);
  }

  lemma {:induction false} StoreFind(t: Tracker, hash: string -> nat, k: Key, e: Entry, u: Tracker, x: Key)
    requires TrackerOk(t, hash) && TrackerOk(u, hash) && u == StoreIn(t, hash, k, e)
    ensures Find(Contents(u, hash), x) == Find(Contents(t, hash)[k := e], x)
  {
    ContentsMember(t, hash, x);
    ContentsMember(u, hash, x);
    StoreAt(t, hash, k, e, x);
  }

  lemma {:induction false} DropFind(t: Tracker, hash: string -> nat, k: Key, u: Tracker, x: Key)
    requires TrackerOk(t, hash) && TrackerOk(u, hash) && u == DropFrom(t, hash, k)
    ensures Find(Contents(u, hash), x) == Find(Contents(t, hash) - {k}, x)
  {
    ContentsMember(t, hash, x);
    ContentsMember(u, hash, x);
    DroppedHas(t.shards[Home(hash, k)], k, x);
  }

  /** Dropping from a shard is dropping from the one cache. */
  lemma {:induction false} DropRefines(t: Tracker, hash: string -> nat, k: Key)
    requires TrackerOk(t, hash)
    ensures TrackerOk(DropFrom(t, hash, k), hash)
    ensures Contents(DropFrom(t, hash, k), hash) == Contents(t, hash) - {k}
  {
    DropOk(t, hash, k);
    var u := DropFrom(t, hash, k);
    forall x ensures Find(Contents(u, hash), x) == Find(Contents(t, hash) - {k}, x) {
      DropFind(t, hash, k, u, x);
    }
    SameFinds(Contents(u, hash), Contents(t, hash) - {k});
  }

  // ----------------------------------------------------------------- lifetimes

  function ClampedEntry(e: Entry, maxTtl: int, now: int): Entry {
    if e.ttl <= maxTtl then e
    else e.(ttl := maxTtl, expiresAt := if e.expiresAt > now + maxTtl then now + maxTtl else e.expiresAt)
  }

  function ClampedShard(sh: Shard, maxTtl: int, now: int): Shard {
    sh.(entries := map a | a in sh.entries :: map f | f in sh.entries[a] :: ClampedEntry(sh.entries[a][f], maxTtl, now))
  }

  lemma {:induction false} ClampedHas(sh: Shard, maxTtl: int, now: int, x: Key)
    ensures Has(ClampedShard(sh, maxTtl, now), x) <==> Has(sh, x)
    ensures Has(sh, x) ==> Get(ClampedShard(sh, maxTtl, now), x) == ClampedEntry(Get(sh, x), maxTtl, now)
  {
  }

  lemma {:induction false} ClampedShardOk(sh: Shard, maxTtl: int, now: int)
    requires ShardOk(sh)
    ensures ShardOk(ClampedShard(sh, maxTtl, now))
    ensures NewestFirst(ClampedShard(sh, maxTtl, now)) <==> NewestFirst(sh)
  {
    var t := ClampedShard(sh, maxTtl, now);
    forall x ensures (x in t.order <==> Has(t, x)) && Age(t, x) == Age(sh, x) {
      ClampedHas(sh, maxTtl, now, x);
    }
    assert t.entries.Keys == sh.entries.Keys;
    assert Ages(t) == Ages(sh);
  }

  function ClampIn(t: Tracker, maxTtl: int, now: int): Tracker {
    t.(shards := seq(|t.shards|, i requires 0 <= i < |t.shards| => ClampedShard(t.shards[i], maxTtl, now)))
  }

  function ClampedContents(m: map<Key, Entry>, maxTtl: int, now: int): map<Key, Entry> {
    map k | k in m :: ClampedEntry(m[k], maxTtl, now)
  }

  /** Clamping keeps every entry, cuts its lifetime to the maximum and, if it cut it, its deadline to that from now. */
  lemma {:induction false} ClampCuts(m: map<Key, Entry>, maxTtl: int, now: int, k: Key)
    ensures var n := ClampedContents(m, maxTtl, now);
      && n.Keys == m.Keys
      && (k in m ==> n[k] == Entry(if m[k].ttl > maxTtl then Min(m[k].expiresAt, now + maxTtl) else m[k].expiresAt,
                                   Min(m[k].ttl, maxTtl), m[k].lastAccess))
  {
  }

  lemma {:induction false} SameOrders(s: seq<Shard>, u: seq<Shard>)
    requires |s| == |u| && forall i :: 0 <= i < |s| ==> s[i].order == u[i].order
    ensures Total(s) == Total(u)
  {
    if s != [] {
      SameOrders(s[..|s| - 1], u[..|u| - 1]);
    }
  }

  lemma {:induction false} ClampOk(t: Tracker, hash: string -> nat, maxTtl: int, now: int)
    requires TrackerOk(t, hash)
    ensures TrackerOk(ClampIn(t, maxTtl, now), hash)
  {
    var u := ClampIn(t, maxTtl, now);
    forall i | 0 <= i < SHARDS ensures ShardOk(u.shards[i]) {
      ClampedShardOk(t.shards[i], maxTtl, now);
    }
    SameOrders(t.shards, u.shards);
    forall i, k | 0 <= i < |u.shards| && k in u.shards[i].order ensures Home(hash, k) == i {
      assert k in t.shards[i].order;
    }
  }

  lemma {:induction false} ClampFind(t: Tracker, hash: string -> nat, maxTtl: int, now: int, u: Tracker, x: Key)
    requires TrackerOk(t, hash) && TrackerOk(u, hash) && u == ClampIn(t, maxTtl, now)
    ensures Find(Contents(u, hash), x) == Find(ClampedContents(Contents(t, hash), maxTtl, now), x)
  {
    ContentsMember(t, hash, x);
    ContentsMember(u, hash, x);
    ClampedHas(t.shards[Home(hash, x)], maxTtl, now, x);
  }

  lemma {:induction false} ClampRefines(t: Tracker, hash: string -> nat, maxTtl: int, now: int)
    requires TrackerOk(t, hash)
    ensures TrackerOk(ClampIn(t, maxTtl, now), hash)
    ensures Contents(ClampIn(t, maxTtl, now), hash) == ClampedContents(Contents(t, hash), maxTtl, now)
  {
    ClampOk(t, hash, maxTtl, now);
    var u := ClampIn(t, maxTtl, now);
    forall x ensures Find(Contents(u, hash), x) == Find(ClampedContents(Contents(t, hash), maxTtl, now), x) {
      ClampFind(t, hash, maxTtl, now, u, x);
    }
    SameFinds(Contents(u, hash), ClampedContents(Contents(t, hash), maxTtl, now));
  }

  // ----------------------------------------------------------------------- runs

  datatype Step =
    | Store(key: Key, expiresAt: int, ttl: int, now: int)
    | Drop(key: Key)
    | Clamp(maxTtl: int, now: int)
    | Clear

  function Apply(t: Tracker, step: Step, hash: string -> nat): (u: Tracker)
    requires |t.shards| == SHARDS
    ensures |u.shards| == SHARDS
  {
    match step
    case Store(k, expiresAt, ttl, now) => StoreIn(t, hash, k, Entry(expiresAt, ttl, now))
    case Drop(k) => DropFrom(t, hash, k)
    case Clamp(maxTtl, now) => ClampIn(t, maxTtl, now)
    case Clear => Initial()
  }

  /** The same step on one plain map. */
  function ApplyMap(m: map<Key, Entry>, step: Step): map<Key, Entry> {
    match step
    case Store(k, expiresAt, ttl, now) => m[k := Entry(expiresAt, ttl, now)]
    case Drop(k) => m - {k}
    case Clamp(maxTtl, now) => ClampedContents(m, maxTtl, now)
    case Clear => map[]
  }

  ghost predicate IsRun(ts: seq<Tracker>, steps: seq<Step>, hash: string -> nat) {
    && |ts| == |steps| + 1 && ts[0] == Initial()
    && forall i :: 0 <= i < |steps| ==> |ts[i].shards| == SHARDS && ts[i + 1] == Apply(ts[i], steps[i], hash)
  }

  ghost predicate IsMapRun(ms: seq<map<Key, Entry>>, steps: seq<Step>) {
    && |ms| == |steps| + 1 && ms[0] == map[]
    && forall i :: 0 <= i < |steps| ==> ms[i + 1] == ApplyMap(ms[i], steps[i])
  }

  /** The clock never runs backwards between two stores. */
  predicate Clocked(steps: seq<Step>) {
    forall i, j :: 0 <= i < j < |steps| && steps[i].Store? && steps[j].Store? ==> steps[i].now <= steps[j].now
  }

  lemma {:induction false} MapBound(ms: seq<map<Key, Entry>>, steps: seq<Step>, i: nat, bound: int)
    requires IsMapRun(ms, steps) && i < |ms|
    requires forall j :: 0 <= j < i && steps[j].Store? ==> steps[j].now <= bound
    ensures NoLaterThan(ms[i], bound)
  {
    if i > 0 {
      MapBound(ms, steps, i - 1, bound);
    }
  }

  lemma {:induction false} EmptyTotal(shards: seq<Shard>)
    requires forall i :: 0 <= i < |shards| ==> shards[i].order == []
    ensures Total(shards) == 0
  {
    if shards != [] {
      EmptyTotal(shards[..|shards| - 1]);
    }
  }

  lemma {:induction false} InitialOk(hash: string -> nat)
    ensures TrackerOk(Initial(), hash) && Contents(Initial(), hash) == map[]
  {
    assert forall i :: 0 <= i < SHARDS ==> Initial().shards[i] == EMPTY;
    EmptyTotal(Initial().shards);
    assert ShardOk(EMPTY);
    forall k ensures Find(Contents(Initial(), hash), k) == Find(map[], k) {
      ContentsMember(Initial(), hash, k);
    }
    SameFinds(Contents(Initial(), hash), map[]);
  }

  lemma {:induction false} InitialNewestFirst()
    ensures AllNewestFirst(Initial().shards)
  {
    assert forall i :: 0 <= i < SHARDS ==> Initial().shards[i] == EMPTY;
    assert NewestFirst(EMPTY);
  }

  lemma {:induction false} StepRefines(t: Tracker, step: Step, hash: string -> nat)
    requires TrackerOk(t, hash)
    ensures TrackerOk(Apply(t, step, hash), hash)
    ensures Contents(Apply(t, step, hash), hash) == ApplyMap(Contents(t, hash), step)
  {
    match step
    case Store(k, expiresAt, ttl, now) => StoreRefines(t, hash, k, Entry(expiresAt, ttl, now));
    case Drop(k) => DropRefines(t, hash, k);
    case Clamp(maxTtl, now) => ClampRefines(t, hash, maxTtl, now);
    case Clear => InitialOk(hash);
  }

  lemma {:induction false} RunOk(ts: seq<Tracker>, steps: seq<Step>, hash: string -> nat, i: nat)
    requires IsRun(ts, steps, hash) && i < |ts|
    ensures TrackerOk(ts[i], hash)
  {
    if i == 0 {
      InitialOk(hash);
    } else {
      RunOk(ts, steps, hash, i - 1);
      StepRefines(ts[i - 1], steps[i - 1], hash);
    }
  }

  lemma {:induction false} StepContents(t: Tracker, m: map<Key, Entry>, step: Step, hash: string -> nat)
    requires TrackerOk(t, hash) && Contents(t, hash) == m
    ensures Contents(Apply(t, step, hash), hash) == ApplyMap(m, step)
  {
    StepRefines(t, step, hash);
  }

  lemma {:induction false} RunContents(
    ts: seq<Tracker>, ms: seq<map<Key, Entry>>, steps: seq<Step>, hash: string -> nat, i: nat)
    requires IsRun(ts, steps, hash) && IsMapRun(ms, steps) && i < |ts|
    ensures |ts[i].shards| == SHARDS && Contents(ts[i], hash) == ms[i]
  {
    RunOk(ts, steps, hash, i);
    if i == 0 {
      InitialOk(hash);
    } else {
      RunContents(ts, ms, steps, hash, i - 1);
      RunOk(ts, steps, hash, i - 1);
      StepContents(ts[i - 1], ms[i - 1], steps[i - 1], hash);
    }
  }

  /**
   * The sharded store refines one cache: after any run, whatever instants its stores carry, maps and lists
   * hold the same entries exactly once, the shards together hold what one plain map would, and the counter
   * is its size.
   */
  lemma {:induction false} ShardedIsOneCache(
    ts: seq<Tracker>, ms: seq<map<Key, Entry>>, steps: seq<Step>, hash: string -> nat, i: nat)
    requires IsRun(ts, steps, hash) && IsMapRun(ms, steps) && i < |ts|
    ensures TrackerOk(ts[i], hash)
    ensures Contents(ts[i], hash) == ms[i]
    ensures ts[i].count == |ms[i]|
  {
    RunOk(ts, steps, hash, i);
    RunContents(ts, ms, steps, hash, i);
    CountIsSize(ts[i], hash);
  }

  // ----------------------------------------------------------------- newest first

  /** A store does not carry an earlier instant than another entry of its shard. */
  ghost predicate InTime(t: Tracker, step: Step, hash: string -> nat)
    requires |t.shards| == SHARDS
  {
    step.Store? ==> NotBehind(t.shards[Home(hash, step.key)], step.key, step.now)
  }

  lemma {:induction false} ReplacedNewestFirst(shards: seq<Shard>, h: nat, sh: Shard)
    requires h < |shards| && AllNewestFirst(shards)
    ensures AllNewestFirst(shards[h := sh]) <==> NewestFirst(sh)
  {
    var u := shards[h := sh];
    assert u[h] == sh;
    if NewestFirst(sh) {
      forall i | 0 <= i < |u| ensures NewestFirst(u[i]) {
        if i != h {
          assert u[i] == shards[i];
        }
      }
    }
  }

  lemma {:induction false} StepNewestFirstIff(t: Tracker, step: Step, hash: string -> nat)
    requires TrackerOk(t, hash) && AllNewestFirst(t.shards)
    ensures AllNewestFirst(Apply(t, step, hash).shards) <==> InTime(t, step, hash)
  {
    match step
    case Store(k, expiresAt, ttl, now) =>
      var h := Home(hash, k);
      StoredNewestFirstIff(t.shards[h], k, Entry(expiresAt, ttl, now));
      ReplacedNewestFirst(t.shards, h, Stored(t.shards[h], k, Entry(expiresAt, ttl, now)));
    case Drop(k) =>
      var h := Home(hash, k);
      DroppedNewestFirst(t.shards[h], k);
      ReplacedNewestFirst(t.shards, h, Dropped(t.shards[h], k));
    case Clamp(maxTtl, now) =>
      forall i | 0 <= i < SHARDS ensures NewestFirst(ClampIn(t, maxTtl, now).shards[i]) {
        ClampedShardOk(t.shards[i], maxTtl, now);
      }
    case Clear =>
      InitialNewestFirst();
  }

  lemma {:induction false} InTimeKeepsOrder(ts: seq<Tracker>, steps: seq<Step>, hash: string -> nat, i: nat)
    requires IsRun(ts, steps, hash) && i < |ts|
    requires forall j :: 0 <= j < i ==> InTime(ts[j], steps[j], hash)
    ensures AllNewestFirst(ts[i].shards)
  {
    if i == 0 {
      InitialNewestFirst();
    } else {
      InTimeKeepsOrder(ts, steps, hash, i - 1);
      RunOk(ts, steps, hash, i - 1);
      StepNewestFirstIff(ts[i - 1], steps[i - 1], hash);
    }
  }

  /**
   * All lists are newest first after every step of a run exactly if no store carries an earlier instant
   * than another entry of its shard then. Stores read the clock before they take the shard's lock, so two
   * of them can enter with decreasing instants.
   */
  lemma {:induction false} NewestFirstIffInTime(ts: seq<Tracker>, steps: seq<Step>, hash: string -> nat)
    requires IsRun(ts, steps, hash)
    ensures (forall i :: 0 <= i < |ts| ==> AllNewestFirst(ts[i].shards))
       <==> (forall i :: 0 <= i < |steps| ==> InTime(ts[i], steps[i], hash))
  {
    if forall i :: 0 <= i < |ts| ==> AllNewestFirst(ts[i].shards) {
      forall i | 0 <= i < |steps| ensures InTime(ts[i], steps[i], hash) {
        RunOk(ts, steps, hash, i);
        StepNewestFirstIff(ts[i], steps[i], hash);
        assert AllNewestFirst(ts[i + 1].shards);
      }
    }
    if forall i :: 0 <= i < |steps| ==> InTime(ts[i], steps[i], hash) {
      forall i | 0 <= i < |ts| ensures AllNewestFirst(ts[i].shards) {
        InTimeKeepsOrder(ts, steps, hash, i);
      }
    }
  }

  /** A clock that never runs backwards between stores keeps every list newest first. */
  lemma {:induction false} ClockedIsNewestFirst(
    ts: seq<Tracker>, ms: seq<map<Key, Entry>>, steps: seq<Step>, hash: string -> nat, i: nat)
    requires IsRun(ts, steps, hash) && IsMapRun(ms, steps) && Clocked(steps) && i < |ts|
    ensures AllNewestFirst(ts[i].shards)
  {
    forall j | 0 <= j < i ensures InTime(ts[j], steps[j], hash) {
      if steps[j].Store? {
        MapBound(ms, steps, j, steps[j].now);
        ShardedIsOneCache(ts, ms, steps, hash, j);
        BoundIsInTime(ts[j], hash, steps[j]);
      }
    }
    InTimeKeepsOrder(ts, steps, hash, i);
  }

  lemma {:induction false} BoundIsInTime(t: Tracker, hash: string -> nat, step: Step)
    requires TrackerOk(t, hash) && step.Store? && NoLaterThan(Contents(t, hash), step.now)
    ensures InTime(t, step, hash)
  {
    var sh := t.shards[Home(hash, step.key)];
    forall x | Has(sh, x) && x != step.key ensures Get(sh, x).lastAccess <= step.now {
      assert ShardOk(sh) && x in sh.order;
      ContentsMember(t, hash, x);
    }
  }

  /** Two stores that enter in the wrong order do break it: the front is then older than what follows. */
  lemma {:induction false} LateStoreBreaksOrder(hash: string -> nat) returns (ts: seq<Tracker>, steps: seq<Step>)
    ensures IsRun(ts, steps, hash) && |steps| == 2 && !AllNewestFirst(ts[2].shards)
  {
    var k, l := Key("a", 1), Key("a", 2);
    steps := [Store(k, 100, 80, 20), Store(l, 90, 80, 10)];
    var t1 := Apply(Initial(), steps[0], hash);
    var t2 := Apply(t1, steps[1], hash);
    ts := [Initial(), t1, t2];
    RunOk(ts, steps, hash, 1);
    InTimeKeepsOrder(ts, steps, hash, 0);
    var h := Home(hash, k);
    assert Initial().shards[h] == EMPTY;
    assert InTime(Initial(), steps[0], hash);
    InTimeKeepsOrder(ts, steps, hash, 1);
    StoredHas(EMPTY, k, Entry(100, 80, 20), k);
    assert t1.shards[h] == Stored(EMPTY, k, Entry(100, 80, 20));
    assert Has(t1.shards[h], k) && Get(t1.shards[h], k).lastAccess == 20;
    assert !InTime(t1, steps[1], hash);
    StepNewestFirstIff(t1, steps[1], hash);
  }

  // ------------------------------------------------------------------- eviction

  /** Entries went and nothing else changed; if the lists were in order, only least recently used ones went. */
  ghost predicate Thinned(m: map<Key, Entry>, n: map<Key, Entry>, inOrder: bool) {
    && n.Keys <= m.Keys && (forall k :: k in n ==> n[k] == m[k])
    && (inOrder ==> forall k, r :: k in n && r in m && r !in n ==> m[r].lastAccess <= n[k].lastAccess)
  }

  predicate OldestOf(m: map<Key, Entry>, k: Key) {
    k in m && forall x :: x in m ==> m[k].lastAccess <= m[x].lastAccess
  }

  lemma {:induction false} ThinStep(m: map<Key, Entry>, n: map<Key, Entry>, k: Key, inOrder: bool)
    requires Thinned(m, n, inOrder) && k in n && (inOrder ==> OldestOf(n, k))
    ensures Thinned(m, n - {k}, inOrder) && |n - {k}| == |n| - 1
  {
    DropOne(n, k);
  }

  function Back(sh: Shard): Key
    requires sh.order != []
  {
    sh.order[|sh.order| - 1]
  }

  /** The oldest back of all shards is the oldest entry of the whole cache. */
  lemma {:induction false} OldestBackIsOldest(t: Tracker, hash: string -> nat, i: nat)
    requires TrackerOk(t, hash) && AllNewestFirst(t.shards) && i < SHARDS && t.shards[i].order != []
    requires forall j :: 0 <= j < SHARDS && t.shards[j].order != [] ==>
               Age(t.shards[i], Back(t.shards[i])) <= Age(t.shards[j], Back(t.shards[j]))
    ensures OldestOf(Contents(t, hash), Back(t.shards[i]))
  {
    var back := Back(t.shards[i]);
    BackIsHeld(t, hash, i);
    var bound := Age(t.shards[i], back);
    BackAge(t, hash, i);
    assert forall j :: 0 <= j < SHARDS ==> NewestFirst(t.shards[j]);
    forall x | x in Contents(t, hash) ensures Contents(t, hash)[back].lastAccess <= Contents(t, hash)[x].lastAccess {
      BackBoundsShard(t, hash, Home(hash, x), bound);
    }
  }

  lemma {:induction false} BackAge(t: Tracker, hash: string -> nat, i: nat)
    requires TrackerOk(t, hash) && i < SHARDS && t.shards[i].order != [] && Back(t.shards[i]) in Contents(t, hash)
    ensures Contents(t, hash)[Back(t.shards[i])].lastAccess == Age(t.shards[i], Back(t.shards[i]))
  {
    assert Back(t.shards[i]) in t.shards[i].order;
    ContentsMember(t, hash, Back(t.shards[i]));
  }

  lemma {:induction false} BackIsHeld(t: Tracker, hash: string -> nat, i: nat)
    requires TrackerOk(t, hash) && i < SHARDS && t.shards[i].order != []
    ensures Back(t.shards[i]) in Contents(t, hash)
  {
    assert ShardOk(t.shards[i]) && Back(t.shards[i]) in t.shards[i].order;
    ContentsMember(t, hash, Back(t.shards[i]));
  }

  /** The first shard whose back is oldest; none when all are empty. */
  method FindOldestBack(shards: seq<Shard>) returns (oldest: Option<nat>)
    ensures oldest.None? ==> forall j :: 0 <= j < |shards| ==> shards[j].order == []
    ensures oldest.Some? ==> oldest.value < |shards| && shards[oldest.value].order != []
    ensures oldest.Some? ==> forall j :: 0 <= j < |shards| && shards[j].order != [] ==>
      Age(shards[oldest.value], Back(shards[oldest.value])) <= Age(shards[j], Back(shards[j]))
  {
    oldest := None;
    for i := 0 to |shards|
      invariant oldest.None? ==> forall j :: 0 <= j < i ==> shards[j].order == []
      invariant oldest.Some? ==> oldest.value < i && shards[oldest.value].order != []
      invariant oldest.Some? ==> forall j :: 0 <= j < i && shards[j].order != [] ==>
        Age(shards[oldest.value], Back(shards[oldest.value])) <= Age(shards[j], Back(shards[j]))
    {
      var sh := shards[i];
      if sh.order != [] && (oldest.None? || Age(sh, Back(sh)) < Age(shards[oldest.value], Back(shards[oldest.value]))) {
        oldest := Some(i);
      }
    }
  }

  /** The step replaces or removes whatever is stored under a key. */
  predicate Touches(st: Step, k: Key) {
    match st
    case Store(x, _, _, _) => x == k
    case Drop(x) => x == k
    case Clamp(_, _) => false
    case Clear => true
  }

  /** What the store in step q put there is still there in state n. */
  predicate Survives(steps: seq<Step>, q: nat, n: nat) {
    q < n <= |steps| && steps[q].Store? && forall j :: q < j < n ==> !Touches(steps[j], steps[q].key)
  }

  lemma {:induction false} UntouchedStays(m: map<Key, Entry>, st: Step, k: Key)
    requires !Touches(st, k)
    ensures k in ApplyMap(m, st) <==> k in m
    ensures k in m ==> ApplyMap(m, st)[k].lastAccess == m[k].lastAccess
  {
  }

  lemma {:induction false} SurvivorStored(ms: seq<map<Key, Entry>>, steps: seq<Step>, q: nat, n: nat)
    requires IsMapRun(ms, steps) && Survives(steps, q, n)
    ensures steps[q].key in ms[n] && ms[n][steps[q].key].lastAccess == steps[q].now
  {
    if n > q + 1 {
      SurvivorStored(ms, steps, q, n - 1);
      UntouchedStays(ms[n - 1], steps[n - 1], steps[q].key);
    }
  }

  /** Where an entry comes from: it was there before, unchanged in age, or a surviving store put it there since. */
  lemma {:induction false} Provenance(ms: seq<map<Key, Entry>>, steps: seq<Step>, k: Key, i: nat, n: nat)
    requires IsMapRun(ms, steps) && i <= n < |ms| && k in ms[n]
    ensures || (k in ms[i] && ms[i][k].lastAccess == ms[n][k].lastAccess)
            || exists q :: i <= q < n && Survives(steps, q, n) && steps[q].key == k
  {
    if i < n {
      var st := steps[n - 1];
      if st.Store? && st.key == k {
        assert Survives(steps, n - 1, n);
      } else {
        UntouchedStays(ms[n - 1], st, k);
        Provenance(ms, steps, k, i, n - 1);
        if q :| i <= q < n - 1 && Survives(steps, q, n - 1) && steps[q].key == k {
          assert Survives(steps, q, n);
        }
      }
    }
  }

  lemma {:induction false} BackBoundsShard(t: Tracker, hash: string -> nat, shard: nat, bound: int)
    requires TrackerOk(t, hash) && shard < SHARDS && NewestFirst(t.shards[shard])
    requires t.shards[shard].order != [] ==> bound <= Age(t.shards[shard], Back(t.shards[shard]))
    ensures forall k :: k in Contents(t, hash) && Home(hash, k) == shard ==> bound <= Contents(t, hash)[k].lastAccess
  {
    forall k | k in Contents(t, hash) && Home(hash, k) == shard ensures bound <= Contents(t, hash)[k].lastAccess {
      ContentsMember(t, hash, k);
      assert ShardOk(t.shards[shard]) && NewestFirst(t.shards[shard]);
      BackIsOldest(t.shards[shard], k);
    }
  }

  /** What the scan saw: each shard newest first when it was looked at, and no back older than the bound. */
  ghost predicate Scanned(ts: seq<Tracker>, at: seq<nat>, n: nat, bound: int) {
    && |at| == SHARDS
    && forall s :: 0 <= s < SHARDS ==>
         at[s] <= n < |ts| && |ts[at[s]].shards| == SHARDS && ScannedShard(ts[at[s]].shards[s], bound)
  }

  ghost predicate ScannedShard(sh: Shard, bound: int) {
    NewestFirst(sh) && (sh.order != [] ==> bound <= Age(sh, Back(sh)))
  }

  /** A store into a shard after it was looked at, still in place in state n, carries an earlier instant. */
  ghost predicate Overtaken(steps: seq<Step>, hash: string -> nat, at: seq<nat>, n: nat, bound: int) {
    exists q: nat ::
      Survives(steps, q, n) && |at| == SHARDS && at[Home(hash, steps[q].key)] <= q && steps[q].now < bound
  }

  /**
   * The eviction scan takes one lock after the other, so other steps fall between looking at a shard's back
   * and removing the chosen entry. If it was not used since, the entry is still the oldest of the whole cache
   * exactly if no store into a shard already looked at is both older than it and still in place.
   */
  lemma {:induction false} ScannedVictimOldestIff(
    ts: seq<Tracker>, ms: seq<map<Key, Entry>>, steps: seq<Step>, hash: string -> nat, at: seq<nat>, n: nat,
        victim: Key)
    requires IsRun(ts, steps, hash) && IsMapRun(ms, steps) && n < |ts| && victim in ms[n]
    requires Scanned(ts, at, n, ms[n][victim].lastAccess)
    ensures OldestOf(ms[n], victim) <==> !Overtaken(steps, hash, at, n, ms[n][victim].lastAccess)
  {
    var bound := ms[n][victim].lastAccess;
    if q: nat :| Survives(steps, q, n) && at[Home(hash, steps[q].key)] <= q && steps[q].now < bound {
      SurvivorStored(ms, steps, q, n);
    }
    if !Overtaken(steps, hash, at, n, bound) {
      forall k | k in ms[n] ensures bound <= ms[n][k].lastAccess {
        NotOlder(ts, ms, steps, hash, at, n, bound, k);
      }
    }
  }

  lemma {:induction false} NotOlder(
    ts: seq<Tracker>, ms: seq<map<Key, Entry>>, steps: seq<Step>, hash: string -> nat, at: seq<nat>, n: nat,
        bound: int, k: Key)
    requires IsRun(ts, steps, hash) && IsMapRun(ms, steps) && n < |ts| && k in ms[n]
    requires Scanned(ts, at, n, bound) && !Overtaken(steps, hash, at, n, bound)
    ensures bound <= ms[n][k].lastAccess
  {
    var s := Home(hash, k);
    assert ScannedShard(ts[at[s]].shards[s], bound);
    ShardedIsOneCache(ts, ms, steps, hash, at[s]);
    BackBoundsShard(ts[at[s]], hash, s, bound);
    Provenance(ms, steps, k, at[s], n);
    if q :| at[s] <= q < n && Survives(steps, q, n) && steps[q].key == k {
      SurvivorStored(ms, steps, q, n);
    }
  }

  const BY_LENGTH: string -> nat := a => |a|

  /** It does happen, under a clock that never runs backwards: the first shard fills after it was looked at. */
  lemma {:induction false} VictimOvertaken()
    returns (ts: seq<Tracker>, ms: seq<map<Key, Entry>>, steps: seq<Step>, at: seq<nat>, victim: Key)
    ensures IsRun(ts, steps, BY_LENGTH) && IsMapRun(ms, steps) && Clocked(steps) && |steps| == 2
    ensures victim in ms[2] && Scanned(ts, at, 2, ms[2][victim].lastAccess) && !OldestOf(ms[2], victim)
  {
    var early, late := Key("", 1), Key("a", 1);
    steps := [Store(early, 90, 80, 10), Store(late, 100, 80, 20)];
    victim := late;
    var t1 := Apply(Initial(), steps[0], BY_LENGTH);
    var t2 := Apply(t1, steps[1], BY_LENGTH);
    ts := [Initial(), t1, t2];
    var m1 := ApplyMap(map[], steps[0]);
    ms := [map[], m1, ApplyMap(m1, steps[1])];
    at := seq(SHARDS, s => if s == 0 then 0 else 2);
    assert ms[2][early].lastAccess == 10 && ms[2][late].lastAccess == 20;
    forall s | 0 <= s < SHARDS ensures ScannedShard(ts[at[s]].shards[s], 20) {
      OvertakenScan(ts, steps, s);
    }
  }

  lemma {:induction false} OvertakenScan(ts: seq<Tracker>, steps: seq<Step>, s: nat)
    requires steps == [Store(Key("", 1), 90, 80, 10), Store(Key("a", 1), 100, 80, 20)] && s < SHARDS
    requires IsRun(ts, steps, BY_LENGTH) && |ts[2].shards| == SHARDS
    ensures ScannedShard(ts[if s == 0 then 0 else 2].shards[s], 20)
  {
    assert NewestFirst(EMPTY);
    assert Home(BY_LENGTH, Key("", 1)) == 0 && Home(BY_LENGTH, Key("a", 1)) == 1;
    assert ts[1] == Apply(ts[0], steps[0], BY_LENGTH) && ts[2] == Apply(ts[1], steps[1], BY_LENGTH);
    if s == 1 {
      assert ts[1].shards[1] == EMPTY;
      OneEntry(Key("a", 1), Entry(100, 80, 20));
      assert ts[2].shards[1] == Stored(EMPTY, Key("a", 1), Entry(100, 80, 20));
    } else {
      assert ts[0].shards[s] == EMPTY;
    }
  }

  lemma {:induction false} OneEntry(k: Key, e: Entry)
    ensures ScannedShard(Stored(EMPTY, k, e), e.lastAccess)
  {
    var t := Stored(EMPTY, k, e);
    assert t.order == [k];
    StoredHas(EMPTY, k, e, k);
    assert Ages(t)[k] == e.lastAccess;
  }

  /** One account's part of the cache. */
  function Restrict(m: map<Key, Entry>, account: string): map<Key, Entry> {
    map k | k in m && k.account == account :: m[k]
  }

  /** Only least recently used entries of one account went. */
  ghost predicate AccountThinned(m: map<Key, Entry>, n: map<Key, Entry>, account: string, inOrder: bool) {
    && Thinned(Restrict(m, account), Restrict(n, account), inOrder)
    && forall k: Key :: k.account != account ==> Find(n, k) == Find(m, k)
  }

  lemma {:induction false} AccountThinStep(m: map<Key, Entry>, n: map<Key, Entry>, account: string, k: Key,
      inOrder: bool)
    requires AccountThinned(m, n, account, inOrder) && k in Restrict(n, account)
    requires inOrder ==> OldestOf(Restrict(n, account), k)
    ensures AccountThinned(m, n - {k}, account, inOrder) && |Restrict(n - {k}, account)| == |Restrict(n, account)| - 1
  {
    assert Restrict(n - {k}, account) == Restrict(n, account) - {k};
    ThinStep(Restrict(m, account), Restrict(n, account), k, inOrder);
    forall x: Key | x.account != account ensures Find(n - {k}, x) == Find(m, x) {
      assert Find(n, x) == Find(m, x);
    }
  }

  function BackOf(sh: Shard, account: string): Key
    requires account in sh.accountOrder && sh.accountOrder[account] != []
  {
    Key(account, sh.accountOrder[account][|sh.accountOrder[account]| - 1])
  }

  lemma {:induction false} AccountBackHeld(sh: Shard, account: string)
    requires ShardOk(sh) && account in sh.entries
    ensures sh.accountOrder[account] != [] && Has(sh, BackOf(sh, account))
  {
    var l := sh.accountOrder[account];
    ProjectMember(sh.order, account, l[|l| - 1]);
    assert l[|l| - 1] in l;
  }

  lemma {:induction false} AccountBack(t: Tracker, hash: string -> nat, account: string)
    requires TrackerOk(t, hash) && account in t.shards[hash(account) % SHARDS].entries
    ensures var sh := t.shards[hash(account) % SHARDS];
      && account in sh.accountOrder && sh.accountOrder[account] != []
      && BackOf(sh, account) in Restrict(Contents(t, hash), account)
      && (AllNewestFirst(t.shards) ==> OldestOf(Restrict(Contents(t, hash), account), BackOf(sh, account)))
  {
    var sh := t.shards[hash(account) % SHARDS];
    assert ShardOk(sh);
    AccountBackHeld(sh, account);
    var back := BackOf(sh, account);
    ContentsMember(t, hash, back);
    if AllNewestFirst(t.shards) {
      forall x | x in Restrict(Contents(t, hash), account)
        ensures Contents(t, hash)[back].lastAccess <= Contents(t, hash)[x].lastAccess
      {
        BackBefore(t, hash, account, x);
      }
    }
  }

  lemma {:induction false} BackBefore(t: Tracker, hash: string -> nat, account: string, x: Key)
    requires TrackerOk(t, hash) && AllNewestFirst(t.shards) && x in Contents(t, hash) && x.account == account
    ensures var sh := t.shards[hash(account) % SHARDS];
      && account in sh.accountOrder && sh.accountOrder[account] != [] && BackOf(sh, account) in Contents(t, hash)
      && Contents(t, hash)[BackOf(sh, account)].lastAccess <= Contents(t, hash)[x].lastAccess
  {
    var sh := t.shards[hash(account) % SHARDS];
    ContentsMember(t, hash, x);
    assert ShardOk(sh);
    AccountBackIsOldest(sh, x);
    ContentsMember(t, hash, BackOf(sh, account));
  }

  lemma {:induction false} RestrictSize(t: Tracker, hash: string -> nat, account: string)
    requires TrackerOk(t, hash)
    ensures var sh := t.shards[hash(account) % SHARDS];
      |Restrict(Contents(t, hash), account)| == if account in sh.entries then |sh.entries[account]| else 0
  {
    var sh := t.shards[hash(account) % SHARDS];
    var r := Restrict(Contents(t, hash), account);
    var held := if account in sh.entries then sh.entries[account] else map[];
    forall k ensures k in r <==> k.account == account && k.fingerprint in held {
      ContentsMember(t, hash, k);
    }
    Renamed(r, held, account);
  }

  lemma {:induction false} Renamed(r: map<Key, Entry>, held: map<Fingerprint, Entry>, account: string)
    requires forall k :: k in r <==> k.account == account && k.fingerprint in held
    ensures |r| == |held|
    decreases |held|
  {
    if held == map[] {
      assert r == map[];
    } else {
      var f :| f in held;
      DropOne(held, f);
      assert Key(account, f) in r;
      DropOne(r, Key(account, f));
      Renamed(r - {Key(account, f)}, held - {f}, account);
    }
  }

  lemma {:induction false} WithoutAbsent<T>(s: seq<T>, x: T)
    requires x !in s
    ensures Without(s, x) == s
  {
    if s != [] {
      WithoutAbsent(s[1..], x);
      assert s == [s[0]] + s[1..];
    }
  }

  function Expired(e: Entry, now: int): bool {
    e.expiresAt <= now
  }

  function Live(m: map<Key, Entry>, now: int): map<Key, Entry> {
    map k | k in m && !Expired(m[k], now) :: m[k]
  }

  function Unexpired(m: map<Key, Entry>, now: int, k: Key): Option<Entry> {
    if k in m && Expired(m[k], now) then None else Find(m, k)
  }

  ghost predicate AccountBounded(m: map<Key, Entry>, n: map<Key, Entry>, account: string, limit: nat, inOrder: bool) {
    Thinned(Restrict(m, account), Restrict(n, account), inOrder)
        && |Restrict(n, account)| == Min(|Restrict(m, account)|, limit)
  }

  ghost predicate AllBounded(m: map<Key, Entry>, n: map<Key, Entry>, limit: nat, inOrder: bool) {
    forall a: string :: AccountBounded(m, n, a, limit, inOrder)
  }

  lemma {:induction false} StayBounded(m: map<Key, Entry>, n: map<Key, Entry>, u: map<Key, Entry>, limit: nat,
      inOrder: bool)
    requires AllBounded(m, n, limit, inOrder) && u.Keys <= n.Keys
    ensures forall a: string :: |Restrict(u, a)| <= limit
  {
    forall a: string ensures |Restrict(u, a)| <= limit {
      RestrictShrinks(n, u, a);
      assert AccountBounded(m, n, a, limit, inOrder);
    }
  }

  lemma {:induction false} LiveFinds(m: map<Key, Entry>, n: map<Key, Entry>, now: int)
    requires forall k: Key :: Find(n, k) == Unexpired(m, now, k)
    ensures n == Live(m, now)
  {
    forall k: Key ensures Find(n, k) == Find(Live(m, now), k) {
      assert Find(n, k) == Unexpired(m, now, k);
    }
    SameFinds(n, Live(m, now));
  }

  /** A configured limit, or the default. */
  function Effective(limit: int, default: nat): (r: nat)
    ensures limit > 0 ==> r == limit
    ensures limit <= 0 ==> r == default
  {
    if limit <= 0 then default else limit
  }

  /**
   * Each account keeps its most recently used entries up to its limit, and of those the cache as a whole up to
   * its own.
   */
  ghost predicate Limited(m: map<Key, Entry>, n: map<Key, Entry>, perAccount: nat, total: nat, inOrder: bool) {
    && (exists kept :: AllBounded(m, kept, perAccount, inOrder) && Thinned(kept, n, inOrder) && |n| == Min(|kept|,
        total))
    && forall a: string :: |Restrict(n, a)| <= perAccount
  }

  lemma {:induction false} BothLimits(
    m: map<Key, Entry>, kept: map<Key, Entry>, n: map<Key, Entry>, perAccount: nat, total: nat, inOrder: bool,
        still: bool)
    requires AllBounded(m, kept, perAccount, inOrder) && Thinned(kept, n, still) && |n| == Min(|kept|, total)
    requires inOrder ==> still
    ensures Limited(m, n, perAccount, total, inOrder)
  {
    StayBounded(m, kept, n, perAccount, inOrder);
    assert Thinned(kept, n, inOrder);
  }

  lemma {:induction false} ThinnedWeakens(m: map<Key, Entry>, n: map<Key, Entry>, account: string, strong: bool,
      weak: bool)
    requires AccountThinned(m, n, account, strong) && (weak ==> strong)
    ensures AccountThinned(m, n, account, weak)
  {
  }

  /** The expired entries of a shard are gone, those still to be visited excepted. */
  ghost predicate PrunedExcept(m: map<Key, Entry>, n: map<Key, Entry>, now: int, hash: string -> nat, i: nat,
      rest: set<Key>) {
    && (forall k: Key :: Find(n, k) == if Home(hash, k) == i && k !in rest then Unexpired(m, now, k) else Find(m, k))
    && forall k :: k in rest ==> Home(hash, k) == i
  }

  lemma {:induction false} ShardKeys(t: Tracker, hash: string -> nat, i: nat)
    requires TrackerOk(t, hash) && i < SHARDS
    ensures forall now: int :: PrunedExcept(Contents(t, hash), Contents(t, hash), now, hash, i,
        Elements(t.shards[i].order))
  {
    var m := Contents(t, hash);
    forall k: Key | Home(hash, k) == i && k !in Elements(t.shards[i].order) ensures k !in m {
      ContentsMember(t, hash, k);
      assert ShardOk(t.shards[i]);
    }
    forall k | k in Elements(t.shards[i].order) ensures Home(hash, k) == i {
      assert k in t.shards[i].order;
    }
  }

  lemma {:induction false} PruneStep(
    m: map<Key, Entry>, n: map<Key, Entry>, now: int, hash: string -> nat, i: nat, rest: set<Key>, k: Key)
    requires PrunedExcept(m, n, now, hash, i, rest) && k in rest
    ensures PrunedExcept(m, if k in n && Expired(n[k], now) then n - {k} else n, now, hash, i, rest - {k})
  {
    assert Find(n, k) == Find(m, k);
    var u := if k in n && Expired(n[k], now) then n - {k} else n;
    forall x: Key ensures Find(u, x) == if Home(hash, x) == i && x !in rest - {k} then Unexpired(m, now, x)
        else Find(m, x) {
      assert Find(n, x) == if Home(hash, x) == i && x !in rest then Unexpired(m, now, x) else Find(m, x);
    }
  }

  /** The accounts of a shard are within the limit, those still to be visited excepted. */
  ghost predicate LimitedExcept(m: map<Key, Entry>, n: map<Key, Entry>, hash: string -> nat, i: nat, rest: set<string>,
      limit: nat, inOrder: bool) {
    && (forall a: string :: if hash(a) % SHARDS == i && a !in rest then AccountBounded(m, n, a, limit,
        inOrder) else Restrict(n, a) == Restrict(m, a))
    && forall a :: a in rest ==> hash(a) % SHARDS == i
  }

  lemma {:induction false} ShardAccounts(t: Tracker, hash: string -> nat, i: nat, limit: nat, inOrder: bool)
    requires TrackerOk(t, hash) && i < SHARDS
    ensures LimitedExcept(Contents(t, hash), Contents(t, hash), hash, i, t.shards[i].entries.Keys, limit, inOrder)
  {
    var m := Contents(t, hash);
    forall a: string | hash(a) % SHARDS == i && a !in t.shards[i].entries
        ensures AccountBounded(m, m, a, limit, inOrder) {
      RestrictSize(t, hash, a);
    }
    forall a | a in t.shards[i].entries ensures hash(a) % SHARDS == i {
      assert ShardOk(t.shards[i]);
      AccountBackHeld(t.shards[i], a);
      assert BackOf(t.shards[i], a) in t.shards[i].order;
      assert Home(hash, BackOf(t.shards[i], a)) == i;
    }
  }

  lemma {:induction false} LimitStep(
    m: map<Key, Entry>, n: map<Key, Entry>, u: map<Key, Entry>, hash: string -> nat, i: nat, rest: set<string>,
        b: string, limit: nat, inOrder: bool)
    requires LimitedExcept(m, n, hash, i, rest, limit, inOrder) && b in rest
    requires AccountThinned(n, u, b, inOrder) && |Restrict(u, b)| == Min(|Restrict(n, b)|, limit)
    ensures LimitedExcept(m, u, hash, i, rest - {b}, limit, inOrder)
  {
    assert Restrict(n, b) == Restrict(m, b);
    forall a: string
      ensures if hash(a) % SHARDS == i && a !in rest - {b} then AccountBounded(m, u, a, limit, inOrder)
          else Restrict(u, a) == Restrict(m, a)
    {
      if a != b {
        OthersRestricted(n, u, b, a, inOrder);
        assert if hash(a) % SHARDS == i && a !in rest then AccountBounded(m, n, a, limit, inOrder)
            else Restrict(n, a) == Restrict(m, a);
      }
    }
  }

  lemma {:induction false} OthersRestricted(
    m: map<Key, Entry>, n: map<Key, Entry>, account: string, other: string, inOrder: bool)
    requires AccountThinned(m, n, account, inOrder) && other != account
    ensures Restrict(n, other) == Restrict(m, other)
  {
    forall k: Key | k.account == other ensures Find(n, k) == Find(m, k) {
    }
    assert forall k :: k in Restrict(n, other) <==> k in n && k.account == other;
    assert forall k :: k in Restrict(m, other) <==> k in m && k.account == other;
    forall k ensures Find(Restrict(n, other), k) == Find(Restrict(m, other), k) {
      assert k.account == other ==> Find(n, k) == Find(m, k);
    }
    SameFinds(Restrict(n, other), Restrict(m, other));
  }

  lemma {:induction false} RestrictShrinks(m: map<Key, Entry>, n: map<Key, Entry>, account: string)
    requires n.Keys <= m.Keys
    ensures |Restrict(n, account)| <= |Restrict(m, account)|
  {
    SubsetSize(Restrict(n, account).Keys, Restrict(m, account).Keys);
  }

  lemma {:induction false} SubsetSize<T>(a: set<T>, b: set<T>)
    requires a <= b
    ensures |a| <= |b|
  {
    assert b == a + (b - a);
  }

  // ---------------------------------------------------------------- the class

  const DEFAULT_PER_ACCOUNT: nat := 2048
  const DEFAULT_TOTAL: nat := 50_000

  class PromptCacheTracker {
    var shards: seq<Shard>
    var entryCount: int
    const hash: string -> nat

    ghost function View(): Tracker reads this {
      Tracker(shards, entryCount)
    }

    ghost predicate Valid() reads this {
      TrackerOk(View(), hash)
    }

    /** Every list is newest first. */
    ghost predicate InOrder() reads this {
      AllNewestFirst(shards)
    }

    /** The one cache that the shards stand for. */
    ghost function Cache(): map<Key, Entry>
      requires Valid()
      reads this
    {
      Contents(View(), hash)
    }

    constructor (hash: string -> nat)
      ensures Valid() && InOrder() && Cache() == map[] && this.hash == hash
    {
      this.hash := hash;
      shards := Initial().shards;
      entryCount := 0;
      InitialOk(hash);
      InitialNewestFirst();
    }

    /** Adds an entry, or refreshes it and moves it to the front of both lists. */
    method PutEntry(k: Key, expiresAt: int, ttl: int, now: int)
      requires Valid()
      modifies this
      ensures Valid() && Cache() == old(Cache())[k := Entry(expiresAt, ttl, now)]
      ensures old(InOrder()) ==> (InOrder() <==> old(NotBehind(shards[Home(hash, k)], k, now)))
    {
      var h := Home(hash, k);
      var entry := Entry(expiresAt, ttl, now);
      assert ShardOk(shards[h]);
      var sh, added := PutInShard(shards[h], k, entry);
      StoreRefines(old(View()), hash, k, entry);
      shards := shards[h := sh];
      if added {
        entryCount := entryCount + 1;
      }
      assert View() == StoreIn(old(View()), hash, k, entry);
      if old(InOrder()) {
        StepNewestFirstIff(old(View()), Store(k, expiresAt, ttl, now), hash);
      }
    }

    method RemoveEntry(k: Key) returns (removed: bool)
      requires Valid()
      modifies this
      ensures Valid() && removed == (k in old(Cache())) && Cache() == old(Cache()) - {k}
      ensures old(InOrder()) ==> InOrder()
    {
      var h := Home(hash, k);
      ContentsMember(View(), hash, k);
      assert ShardOk(shards[h]);
      var sh;
      sh, removed := RemoveFromShard(shards[h], k);
      DropRefines(old(View()), hash, k);
      shards := shards[h := sh];
      if removed {
        entryCount := entryCount - 1;
      }
      assert View() == DropFrom(old(View()), hash, k);
      if old(InOrder()) {
        StepNewestFirstIff(old(View()), Drop(k), hash);
      }
    }

    /** How many entries an account has. */
    method AccountSizeNow(account: string) returns (n: nat)
      requires Valid()
      ensures n == |Restrict(Cache(), account)|
      ensures n > 0 ==> account in shards[hash(account) % SHARDS].entries
    {
      RestrictSize(View(), hash, account);
      var sh := shards[hash(account) % SHARDS];
      n := if account in sh.entries then |sh.entries[account]| else 0;
    }

    /** Removes the back of an account's list. */
    method EvictAccountBack(account: string) returns (k: Key)
      requires Valid() && account in shards[hash(account) % SHARDS].entries
      modifies this
      ensures Valid() && k in Restrict(old(Cache()), account) && Cache() == old(Cache()) - {k}
      ensures old(InOrder()) ==> InOrder() && OldestOf(Restrict(old(Cache()), account), k)
    {
      AccountBack(View(), hash, account);
      k := BackOf(shards[hash(account) % SHARDS], account);
      var removed := RemoveEntry(k);
    }

    /** Evicts from the back of the account's list until the account is within its limit. */
    method EnforceAccountLimit(account: string, maxEntries: nat)
      requires Valid()
      modifies this
      ensures Valid() && AccountThinned(old(Cache()), Cache(), account, old(InOrder()))
          && (old(InOrder()) ==> InOrder())
      ensures |Restrict(Cache(), account)| == Min(|Restrict(old(Cache()), account)|, maxEntries)
    {
      ghost var m, sorted := Cache(), InOrder();
      var size := AccountSizeNow(account);
      while size > maxEntries
        invariant Valid() && AccountThinned(m, Cache(), account, sorted) && (sorted ==> InOrder())
        invariant size == |Restrict(Cache(), account)| >= Min(|Restrict(m, account)|, maxEntries)
        invariant size > 0 ==> account in shards[hash(account) % SHARDS].entries
        decreases size
      {
        ghost var n := Cache();
        var k := EvictAccountBack(account);
        AccountThinStep(m, n, account, k, sorted);
        size := AccountSizeNow(account);
      }
    }

    /** The shard whose back is oldest. */
    method OldestShard() returns (oldest: nat)
      requires Valid() && entryCount > 0
      ensures oldest < SHARDS && shards[oldest].order != []
      ensures Back(shards[oldest]) in Cache() && (InOrder() ==> OldestOf(Cache(), Back(shards[oldest])))
    {
      var found := FindOldestBack(shards);
      if found.None? {
        EmptyTotal(shards);
        assert false;
      }
      oldest := found.value;
      BackIsHeld(View(), hash, oldest);
      if InOrder() {
        OldestBackIsOldest(View(), hash, oldest);
      }
    }

    /** Evicts the globally oldest entry until the whole cache is within its limit. */
    method EnforceGlobalLimit(maxEntries: int)
      requires Valid()
      modifies this
      ensures Valid() && Thinned(old(Cache()), Cache(), old(InOrder())) && (old(InOrder()) ==> InOrder())
      ensures |Cache()| == if maxEntries <= 0 then |old(Cache())| else Min(|old(Cache())|, maxEntries)
    {
      CountIsSize(View(), hash);
      if maxEntries <= 0 || entryCount <= maxEntries {
        return;
      }
      ghost var m, sorted := Cache(), InOrder();
      while entryCount > maxEntries
        invariant Valid() && Thinned(m, Cache(), sorted) && (sorted ==> InOrder())
        invariant entryCount == |Cache()| >= maxEntries
        decreases entryCount
      {
        var i := OldestShard();
        var k := Back(shards[i]);
        ThinStep(m, Cache(), k, sorted);
        var removed := RemoveEntry(k);
        CountIsSize(View(), hash);
      }
    }

    method DropIfExpired(k: Key, now: int)
      requires Valid()
      modifies this
      ensures Valid()
      ensures Cache() == if k in old(Cache()) && Expired(old(Cache())[k], now) then old(Cache()) - {k} else old(Cache())
      ensures old(InOrder()) ==> InOrder()
    {
      ContentsMember(View(), hash, k);
      var h := Home(hash, k);
      if Has(shards[h], k) && Expired(Get(shards[h], k), now) {
        var removed := RemoveEntry(k);
      }
    }

    /** Removes the expired entries of one shard. */
    method PruneShard(i: nat, now: int)
      requires Valid() && i < SHARDS
      modifies this
      ensures Valid() && PrunedExcept(old(Cache()), Cache(), now, hash, i, {}) && (old(InOrder()) ==> InOrder())
    {
      ghost var m := Cache();
      var rest := Elements(shards[i].order);
      ShardKeys(View(), hash, i);
      while rest != {}
        invariant Valid() && PrunedExcept(m, Cache(), now, hash, i, rest) && (old(InOrder()) ==> InOrder())
        decreases |rest|
      {
        var k :| k in rest;
        PruneStep(m, Cache(), now, hash, i, rest, k);
        DropIfExpired(k, now);
        rest := rest - {k};
      }
    }

    method PruneExpired(now: int)
      requires Valid()
      modifies this
      ensures Valid() && Cache() == Live(old(Cache()), now) && (old(InOrder()) ==> InOrder())
      ensures forall k: Key :: k in Cache() <==> k in old(Cache()) && now < old(Cache())[k].expiresAt
    {
      ghost var m := Cache();
      for i := 0 to SHARDS
        invariant Valid() && (old(InOrder()) ==> InOrder())
        invariant forall k: Key :: Find(Cache(), k) == if Home(hash, k) < i then Unexpired(m, now, k) else Find(m, k)
      {
        PruneShard(i, now);
      }
      LiveFinds(m, Cache(), now);
    }

    /** Brings every account of one shard within its limit. */
    method EnforceShardLimits(i: nat, maxEntries: nat)
      requires Valid() && i < SHARDS
      modifies this
      ensures Valid() && LimitedExcept(old(Cache()), Cache(), hash, i, {}, maxEntries, old(InOrder()))
      ensures old(InOrder()) ==> InOrder()
    {
      ghost var m, sorted := Cache(), InOrder();
      var accounts := shards[i].entries.Keys;
      ShardAccounts(View(), hash, i, maxEntries, sorted);
      while accounts != {}
        invariant Valid() && LimitedExcept(m, Cache(), hash, i, accounts, maxEntries, sorted) && (sorted ==> InOrder())
        decreases |accounts|
      {
        var a :| a in accounts;
        ghost var n := Cache();
        ghost var still := InOrder();
        EnforceAccountLimit(a, maxEntries);
        ThinnedWeakens(n, Cache(), a, still, sorted);
        LimitStep(m, n, Cache(), hash, i, accounts, a, maxEntries, sorted);
        accounts := accounts - {a};
      }
    }

    method EnforceAllAccountLimits(maxEntries: nat)
      requires Valid()
      modifies this
      ensures Valid() && AllBounded(old(Cache()), Cache(), maxEntries, old(InOrder())) && (old(InOrder()) ==> InOrder())
    {
      ghost var m, sorted := Cache(), InOrder();
      for i := 0 to SHARDS
        invariant Valid() && (sorted ==> InOrder())
        invariant forall a: string :: if hash(a) % SHARDS < i then AccountBounded(m, Cache(), a, maxEntries, sorted)
                                      else Restrict(Cache(), a) == Restrict(m, a)
      {
        EnforceShardLimits(i, maxEntries);
      }
    }

    /** New limits take effect at once: accounts first give up their oldest entries, then the whole cache does. */
    method ConfigureLimits(perAccount: int, total: int)
      requires Valid()
      modifies this
      ensures Valid() && (old(InOrder()) ==> InOrder())
      ensures Limited(old(Cache()), Cache(), Effective(perAccount, DEFAULT_PER_ACCOUNT),
                      Max(Effective(total, DEFAULT_TOTAL), Effective(perAccount, DEFAULT_PER_ACCOUNT)), old(InOrder()))
    {
      var maxPerAccount, maxTotal := Effective(perAccount, DEFAULT_PER_ACCOUNT), Effective(total, DEFAULT_TOTAL);
      if maxTotal < maxPerAccount {
        maxTotal := maxPerAccount;
      }
      EnforceLimits(maxPerAccount, maxTotal);
    }

    method EnforceLimits(maxPerAccount: nat, maxTotal: nat)
      requires Valid() && maxTotal > 0
      modifies this
      ensures Valid() && (old(InOrder()) ==> InOrder())
      ensures Limited(old(Cache()), Cache(), maxPerAccount, maxTotal, old(InOrder()))
    {
      EnforceAllAccountLimits(maxPerAccount);
      ghost var m, still := Cache(), InOrder();
      EnforceGlobalLimit(maxTotal);
      BothLimits(old(Cache()), m, Cache(), maxPerAccount, maxTotal, old(InOrder()), still);
    }

    method ClampEntryTTLs(maxTtl: int, now: int)
      requires Valid()
      modifies this
      ensures Valid() && Cache() == if maxTtl <= 0 then old(Cache()) else ClampedContents(old(Cache()), maxTtl, now)
      ensures old(InOrder()) ==> InOrder()
    {
      if maxTtl <= 0 {
        return;
      }
      for i := 0 to SHARDS
        invariant |shards| == SHARDS && entryCount == old(entryCount)
        invariant forall j :: 0 <= j < i ==> shards[j] == ClampedShard(old(shards)[j], maxTtl, now)
        invariant forall j :: i <= j < SHARDS ==> shards[j] == old(shards)[j]
      {
        shards := shards[i := ClampedShard(shards[i], maxTtl, now)];
      }
      ClampRefines(old(View()), hash, maxTtl, now);
      assert View() == ClampIn(old(View()), maxTtl, now);
      if old(InOrder()) {
        StepNewestFirstIff(old(View()), Clamp(maxTtl, now), hash);
      }
    }

    method Clear()
      modifies this
      ensures Valid() && InOrder() && Cache() == map[]
    {
      shards := Initial().shards;
      entryCount := 0;
      InitialOk(hash);
      InitialNewestFirst();
    }
  }

  /** Updates the map and both lists of a shard: a known entry moves to the front, a new one is pushed there. */
  method PutInShard(sh: Shard, k: Key, entry: Entry) returns (t: Shard, added: bool)
    requires ShardOk(sh)
    ensures t == Stored(sh, k, entry) && added == !Has(sh, k)
  {
    var entries := if k.account in sh.entries then sh.entries[k.account] else map[];
    var list := if k.account in sh.accountOrder then sh.accountOrder[k.account] else [];
    added := k.fingerprint !in entries;
    var order := sh.order;
    if added {
      NotListed(sh, k);
      list := [k.fingerprint] + list;
      order := [k] + order;
    } else {
      list := [k.fingerprint] + Without(list, k.fingerprint);
      order := [k] + Without(order, k);
    }
    t := Shard(sh.entries[k.account := entries[k.fingerprint := entry]], sh.accountOrder[k.account := list], order);
  }

  method RemoveFromShard(sh: Shard, k: Key) returns (t: Shard, removed: bool)
    requires ShardOk(sh)
    ensures t == Dropped(sh, k) && removed == Has(sh, k)
  {
    if !Has(sh, k) {
      return sh, false;
    }
    var entries := sh.entries[k.account] - {k.fingerprint};
    var list := Without(sh.accountOrder[k.account], k.fingerprint);
    t := sh.(order := Without(sh.order, k));
    if entries == map[] {
      t := t.(entries := sh.entries - {k.account}, accountOrder := sh.accountOrder - {k.account});
    } else {
      t := t.(entries := sh.entries[k.account := entries], accountOrder := sh.accountOrder[k.account := list]);
    }
    removed := true;
  }

  lemma {:induction false} NotListed(sh: Shard, k: Key)
    requires ShardOk(sh) && !Has(sh, k)
    ensures Without(sh.order, k) == sh.order
    ensures k.account in sh.accountOrder ==>
        Without(sh.accountOrder[k.account], k.fingerprint) == sh.accountOrder[k.account]
    ensures Without([], k.fingerprint) == []
  {
    WithoutAbsent(sh.order, k);
    if k.account in sh.accountOrder {
      ProjectMember(sh.order, k.account, k.fingerprint);
      WithoutAbsent(sh.accountOrder[k.account], k.fingerprint);
    }
  }
}
