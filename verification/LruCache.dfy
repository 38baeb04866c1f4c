/**
 The in-process LRU cache of backend/core/cache.py. The ordered dictionary is the sequence of
 its entries, oldest first; a key occurs in it at most once.
 */
module LruCache {
  import opened Options

  /** `expiry` 0 means that the entry never expires. */
  datatype Entry<V> = Entry(key: string, value: V, expiry: nat)

  datatype Cache<V> = Cache(store: seq<Entry<V>>, max: nat, ttl: nat)

  function Keys<V>(store: seq<Entry<V>>): (keys: seq<string>)
    ensures |keys| == |store|
  {
    if store == [] then [] else Keys(store[..|store| - 1]) + [store[|store| - 1].key]
  }

  predicate Distinct(keys: seq<string>) {
    forall i, j | 0 <= i < j < |keys| :: keys[i] != keys[j]
  }

  function Find<V>(store: seq<Entry<V>>, key: string): (r: Option<Entry<V>>)
    ensures r.Some? ==> r.value.key == key
  {
    if store == [] then None
    else if store[|store| - 1].key == key then Some(store[|store| - 1])
    else Find(store[..|store| - 1], key)
  }

  function Without<V>(store: seq<Entry<V>>, key: string): (r: seq<Entry<V>>)
    ensures |r| <= |store|
  {
    if store == [] then []
    else
      var n := |store| - 1;
      Without(store[..n], key) + if store[n].key == key then [] else [store[n]]
  }

  /** The newest `n` items. */
  function Newest<T>(items: seq<T>, n: nat): seq<T> {
    if |items| <= n then items else items[|items| - n..]
  }

  predicate Live<V>(e: Entry<V>, now: nat) {
    e.expiry == 0 || now <= e.expiry
  }

  function ExpiryOf(ttl: nat, now: nat): nat {
    if ttl == 0 then 0 else now + ttl
  }

  function Get<V>(c: Cache<V>, key: string, now: nat): (Cache<V>, Option<V>) {
    match Find(c.store, key)
    case None => (c, None)
    case Some(e) =>
      if Live(e, now) then (c.(store := Without(c.store, key) + [e]), Some(e.value))
      else (c.(store := Without(c.store, key)), None)
  }

  function Set<V>(c: Cache<V>, key: string, value: V, ttl: Option<nat>, now: nat): Cache<V> {
    var effective := if ttl.Some? then ttl.value else c.ttl;
    var entry := Entry(key, value, ExpiryOf(effective, now));
    c.(store := Newest(Without(c.store, key) + [entry], c.max))
  }

  function Delete<V>(c: Cache<V>, key: string): Cache<V> {
    c.(store := Without(c.store, key))
  }

  // ---------------------------------------------------------------- sequences of entries

  function WithoutKey(keys: seq<string>, key: string): (r: seq<string>)
    ensures |r| <= |keys|
  {
    if keys == [] then []
    else
      var n := |keys| - 1;
      WithoutKey(keys[..n], key) + if keys[n] == key then [] else [keys[n]]
  }

  lemma {:induction false} KeysOfWithout<V>(store: seq<Entry<V>>, key: string)
    ensures Keys(Without(store, key)) == WithoutKey(Keys(store), key)
  {
    if store != [] {
      var n := |store| - 1;
      KeysOfWithout(store[..n], key);
      if store[n].key == key {
        assert Without(store, key) == Without(store[..n], key);
        assert WithoutKey(Keys(store), key) == WithoutKey(Keys(store)[..n], key);
      } else {
        KeysAppend(Without(store[..n], key), store[n]);
      }
    }
  }

  lemma KeysAppend<V>(store: seq<Entry<V>>, e: Entry<V>)
    ensures Keys(store + [e]) == Keys(store) + [e.key]
  {
    assert (store + [e])[..|store|] == store;
  }

  lemma {:induction false} KeysAt<V>(store: seq<Entry<V>>, i: nat)
    requires i < |store|
    ensures Keys(store)[i] == store[i].key
  {
    if i < |store| - 1 {
      KeysAt(store[..|store| - 1], i);
    }
  }

  lemma KeysOfNewest<V>(store: seq<Entry<V>>, n: nat)
    ensures Keys(Newest(store, n)) == Newest(Keys(store), n)
  {
    var r := Newest(store, n);
    forall i | 0 <= i < |r|
      ensures Keys(r)[i] == Newest(Keys(store), n)[i]
    {
      KeysAt(r, i);
      KeysAt(store, i + |store| - |r|);
    }
  }

  lemma {:induction false} FindIffKey<V>(store: seq<Entry<V>>, key: string)
    ensures Find(store, key).Some? <==> key in Keys(store)
  {
    if store != [] {
      FindIffKey(store[..|store| - 1], key);
    }
  }

  lemma {:induction false} WithoutKeyFacts(keys: seq<string>, key: string)
    requires Distinct(keys)
    ensures Distinct(WithoutKey(keys, key)) && key !in WithoutKey(keys, key)
    ensures forall k | k in WithoutKey(keys, key) :: k in keys
    ensures |WithoutKey(keys, key)| == if key in keys then |keys| - 1 else |keys|
  {
    if keys != [] {
      var n := |keys| - 1;
      WithoutKeyFacts(keys[..n], key);
      assert keys == keys[..n] + [keys[n]];
      assert keys[n] !in keys[..n];
    }
  }

  lemma WithoutKeyAppend(keys: seq<string>, last: string, key: string)
    ensures WithoutKey(keys + [last], key) == WithoutKey(keys, key) + if last == key then [] else [last]
  {
    assert (keys + [last])[..|keys|] == keys;
  }

  lemma {:induction false} WithoutKeyConcat(a: seq<string>, b: seq<string>, key: string)
    ensures WithoutKey(a + b, key) == WithoutKey(a, key) + WithoutKey(b, key)
  {
    if b == [] {
      assert a + b == a;
    } else {
      hide WithoutKey;
      var rest, last := b[..|b| - 1], b[|b| - 1];
      WithoutKeyConcat(a, rest, key);
      WithoutKeyAppend(a + rest, last, key);
      WithoutKeyAppend(rest, last, key);
      assert a + b == a + rest + [last] && b == rest + [last];
    }
  }

  // ---------------------------------------------------------------- recency

  datatype Op<V> =
    | DoGet(key: string, now: nat)
    | DoSet(key: string, value: V, ttl: Option<nat>, now: nat)
    | DoDelete(key: string)
    | DoClear

  function Step<V>(c: Cache<V>, op: Op<V>): Cache<V> {
    match op
    case DoGet(key, now) => Get(c, key, now).0
    case DoSet(key, value, ttl, now) => Set(c, key, value, ttl, now)
    case DoDelete(key) => Delete(c, key)
    case DoClear => c.(store := [])
  }

  function Run<V>(c: Cache<V>, ops: seq<Op<V>>): Cache<V> {
    if ops == [] then c else Step(Run(c, ops[..|ops| - 1]), ops[|ops| - 1])
  }

  /** The keys touched by one operation: set, or found by a get. */
  function Touch<V>(c: Cache<V>, op: Op<V>): seq<string> {
    match op
    case DoGet(key, now) => if Get(c, key, now).1.Some? then [key] else []
    case DoSet(key, _, _, _) => [key]
    case _ => []
  }

  function Touches<V>(c: Cache<V>, ops: seq<Op<V>>): seq<string> {
    if ops == [] then []
    else
      var n := |ops| - 1;
      Touches(c, ops[..n]) + Touch(Run(c, ops[..n]), ops[n])
  }

  function TouchedKeys<V>(c: Cache<V>, ops: seq<Op<V>>): set<string> {
    set x | x in Touches(c, ops)
  }

  /** The distinct keys of a history of touches, in the order of their last touch. */
  function ByLastTouch(touches: seq<string>): seq<string> {
    if touches == [] then []
    else
      var n := |touches| - 1;
      WithoutKey(ByLastTouch(touches[..n]), touches[n]) + [touches[n]]
  }

  /** ByLastTouch is what it says: no duplicates, every touched key, later touches later. */
  lemma {:induction false} ByLastTouchFacts(touches: seq<string>)
    ensures Distinct(ByLastTouch(touches))
    ensures forall k :: k in ByLastTouch(touches) <==> k in touches
    ensures touches != [] ==> ByLastTouch(touches)[|ByLastTouch(touches)| - 1] == touches[|touches| - 1]
  {
    hide WithoutKey;
    if touches != [] {
      var n := |touches| - 1;
      ByLastTouchFacts(touches[..n]);
      WithoutKeyFacts(ByLastTouch(touches[..n]), touches[n]);
      forall k
        ensures k in ByLastTouch(touches) <==> k in touches
      {
        WithoutKeyMember(ByLastTouch(touches[..n]), touches[n], k);
        assert touches == touches[..n] + [touches[n]];
      }
    }
  }

  lemma {:induction false} WithoutKeyMember(keys: seq<string>, key: string, k: string)
    ensures k in WithoutKey(keys, key) <==> k in keys && k != key
  {
    if keys != [] {
      WithoutKeyMember(keys[..|keys| - 1], key, k);
      assert keys == keys[..|keys| - 1] + [keys[|keys| - 1]];
    }
  }

  lemma NewestOfConcat(a: seq<string>, b: seq<string>, n: nat)
    requires |b| >= n
    ensures Newest(a + b, n) == Newest(b, n)
  {
  }

  /** Touching a key commutes with forgetting all but the newest `max`. */
  lemma TouchNewest(keys: seq<string>, key: string, max: nat)
    requires Distinct(keys)
    ensures Newest(WithoutKey(Newest(keys, max), key) + [key], max) == Newest(WithoutKey(keys, key) + [key], max)
  {
    if |keys| > max {
      hide WithoutKey;
      var cut := |keys| - max;
      var a, b := keys[..cut], keys[cut..];
      assert keys == a + b && Newest(keys, max) == b;
      WithoutKeyConcat(a, b, key);
      WithoutKeyFacts(b, key);
      var rest := WithoutKey(b, key) + [key];
      assert WithoutKey(keys, key) + [key] == WithoutKey(a, key) + rest;
      NewestOfConcat(WithoutKey(a, key), rest, max);
    }
  }

  /** The operation neither removes an entry on purpose nor meets an expired one. */
  predicate Gentle<V>(c: Cache<V>, op: Op<V>) {
    match op
    case DoGet(key, now) => Find(c.store, key).Some? ==> Live(Find(c.store, key).value, now)
    case DoSet(_, _, _, _) => true
    case _ => false
  }

  predicate GentleRun<V>(c: Cache<V>, ops: seq<Op<V>>) {
    ops == [] || (GentleRun(c, ops[..|ops| - 1]) && Gentle(Run(c, ops[..|ops| - 1]), ops[|ops| - 1]))
  }

  lemma HoldsAfterStep<V>(c: Cache<V>, op: Op<V>, touches: seq<string>)
    requires Gentle(c, op) && Keys(c.store) == Newest(ByLastTouch(touches), c.max)
    ensures Keys(Step(c, op).store) == Newest(ByLastTouch(touches + Touch(c, op)), c.max)
  {
    hide Keys, Without, WithoutKey, Find;
    if op.DoSet? || Get(c, op.key, op.now).1.Some? {
      assert (touches + [op.key])[..|touches|] == touches;
      ByLastTouchFacts(touches);
      TouchNewest(ByLastTouch(touches), op.key, c.max);
      TouchedStore(c, op);
      if op.DoGet? {
        FindIffKey(c.store, op.key);
        NewestDistinct(ByLastTouch(touches), c.max);
        WithoutKeyFacts(Keys(c.store), op.key);
      }
    } else {
      assert touches + [] == touches;
    }
  }

  lemma NewestDistinct(keys: seq<string>, n: nat)
    requires Distinct(keys)
    ensures Distinct(Newest(keys, n))
  {
  }

  /**
   LRU refinement: without deletion, clearing or expiry, the keys held are exactly the last
   `max` distinct touched keys, in the order of their last touch.
   */
  lemma {:induction false} HoldsMostRecent<V>(max: nat, ttl: nat, ops: seq<Op<V>>)
    requires GentleRun(Cache([], max, ttl), ops)
    ensures var c := Run(Cache([], max, ttl), ops);
            && c.max == max
            && Keys(c.store) == Newest(ByLastTouch(Touches(Cache([], max, ttl), ops)), max)
  {
    if ops != [] {
      var start: Cache<V> := Cache([], max, ttl);
      var n := |ops| - 1;
      HoldsMostRecent(max, ttl, ops[..n]);
      HoldsAfterStep(Run(start, ops[..n]), ops[n], Touches(start, ops[..n]));
    }
  }

  /** Setting or finding a key moves it to the end; a set then drops what exceeds the size. */
  lemma TouchedStore<V>(c: Cache<V>, op: Op<V>)
    requires op.DoSet? || (op.DoGet? && Get(c, op.key, op.now).1.Some?)
    ensures var moved := WithoutKey(Keys(c.store), op.key) + [op.key];
            Keys(Step(c, op).store) == if op.DoSet? then Newest(moved, c.max) else moved
  {
    KeysOfWithout(c.store, op.key);
    if op.DoSet? {
      var entry := Entry(op.key, op.value, ExpiryOf(if op.ttl.Some? then op.ttl.value else c.ttl, op.now));
      KeysAppend(Without(c.store, op.key), entry);
      KeysOfNewest(Without(c.store, op.key) + [entry], c.max);
    } else {
      KeysAppend(Without(c.store, op.key), Find(c.store, op.key).value);
    }
  }

  // ---------------------------------------------------------------- retention of a key

  /** What holds of every reachable cache: no key twice, and never more than `max` entries. */
  predicate WellFormed<V>(c: Cache<V>) {
    Distinct(Keys(c.store)) && |c.store| <= c.max
  }

  lemma AppendDistinct(keys: seq<string>, key: string)
    requires Distinct(keys)
    ensures Distinct(WithoutKey(keys, key) + [key])
  {
    WithoutKeyFacts(keys, key);
  }

  lemma StepWellFormed<V>(c: Cache<V>, op: Op<V>)
    requires WellFormed(c)
    ensures WellFormed(Step(c, op)) && Step(c, op).max == c.max
  {
    if !op.DoClear? {
      var keys := Keys(c.store);
      hide Keys, Without, WithoutKey, Find, Distinct;
      KeysOfWithout(c.store, op.key);
      WithoutKeyFacts(keys, op.key);
      AppendDistinct(keys, op.key);
      FindIffKey(c.store, op.key);
      if op.DoSet? || (op.DoGet? && Get(c, op.key, op.now).1.Some?) {
        TouchedStore(c, op);
        NewestDistinct(WithoutKey(keys, op.key) + [op.key], c.max);
      }
    }
  }

  lemma {:induction false} RunWellFormed<V>(c: Cache<V>, ops: seq<Op<V>>)
    requires WellFormed(c)
    ensures WellFormed(Run(c, ops)) && Run(c, ops).max == c.max
  {
    if ops != [] {
      RunWellFormed(c, ops[..|ops| - 1]);
      StepWellFormed(Run(c, ops[..|ops| - 1]), ops[|ops| - 1]);
    }
  }

  /** The keys touched after the last touch of `k`, as far as they are still held. */
  function After(keys: seq<string>, k: string): seq<string> {
    if keys == [] then []
    else
      var n := |keys| - 1;
      if keys[n] == k then [] else After(keys[..n], k) + [keys[n]]
  }

  lemma {:induction false} AfterWithout(keys: seq<string>, j: string, k: string)
    requires j != k
    ensures forall x | x in After(WithoutKey(keys, j), k) :: x in After(keys, k)
    ensures k in WithoutKey(keys, j) <==> k in keys
  {
    WithoutKeyMember(keys, j, k);
    if keys != [] {
      var n := |keys| - 1;
      AfterWithout(keys[..n], j, k);
      var rest := WithoutKey(keys[..n], j);
      assert (rest + [keys[n]])[..|rest|] == rest;
      assert rest + [] == rest;
    }
  }

  /** Dropping an older key does not change what comes after `k`. */
  lemma {:induction false} AfterDropFirst(keys: seq<string>, k: string)
    requires keys != [] && k in keys[1..]
    ensures After(keys[1..], k) == After(keys, k)
  {
    var n := |keys| - 1;
    if keys[n] != k {
      assert keys[1..][..n - 1] == keys[..n][1..];
      assert keys[1..] == keys[..n][1..] + [keys[n]];
      AfterDropFirst(keys[..n], k);
    }
  }

  lemma {:induction false} AfterFirst(keys: seq<string>)
    requires keys != [] && Distinct(keys)
    ensures After(keys, keys[0]) == keys[1..]
  {
    var n := |keys| - 1;
    if n > 0 {
      AfterFirst(keys[..n]);
      assert keys[..n][1..] + [keys[n]] == keys[1..];
    }
  }

  lemma {:induction false} DistinctFits(keys: seq<string>, held: set<string>)
    requires Distinct(keys) && forall k | k in keys :: k in held
    ensures |keys| <= |held|
  {
    if keys != [] {
      var n := |keys| - 1;
      DistinctFits(keys[..n], held - {keys[n]});
    }
  }

  /** A key with fewer than `max` others after it outlives the eviction of the oldest. */
  lemma OutlivesEviction(keys: seq<string>, k: string, max: nat, touched: set<string>)
    requires Distinct(keys) && k in keys && |keys| <= max + 1 && |touched| < max
    requires forall x | x in After(keys, k) :: x in touched
    ensures k in Newest(keys, max) && After(Newest(keys, max), k) == After(keys, k)
  {
    if |keys| == max + 1 {
      if keys[0] == k {
        AfterFirst(keys);
        DistinctFits(keys[1..], touched);
      }
      assert k in keys[1..];
      AfterDropFirst(keys, k);
    }
  }

  /** The operation leaves `k` alone: it neither touches nor removes it. */
  predicate Spares<V>(op: Op<V>, k: string) {
    !op.DoClear? && op.key != k
  }

  lemma {:induction false} FindWithout<V>(store: seq<Entry<V>>, j: string, k: string)
    requires j != k
    ensures Find(Without(store, j), k) == Find(store, k)
  {
    if store != [] {
      var n := |store| - 1;
      FindWithout(store[..n], j, k);
      var rest := Without(store[..n], j);
      assert (rest + [store[n]])[..|rest|] == rest;
      assert rest + [] == rest;
    }
  }

  lemma FindAppend<V>(store: seq<Entry<V>>, e: Entry<V>, k: string)
    ensures Find(store + [e], k) == if e.key == k then Some(e) else Find(store, k)
  {
    assert (store + [e])[..|store|] == store;
  }

  lemma {:induction false} FindNewest<V>(store: seq<Entry<V>>, n: nat, k: string)
    requires Find(Newest(store, n), k).Some?
    ensures Find(Newest(store, n), k) == Find(store, k)
  {
    if |store| > n && n > 0 && store[|store| - 1].key != k {
      var last := |store| - 1;
      assert Newest(store, n)[..n - 1] == Newest(store[..last], n - 1);
      FindNewest(store[..last], n - 1, k);
    }
  }

  /** What a spared key needs and keeps. */
  ghost predicate Held<V>(c: Cache<V>, k: string, entry: Entry<V>, touched: set<string>) {
    Find(c.store, k) == Some(entry) && forall x | x in After(Keys(c.store), k) :: x in touched
  }

  lemma SpareKeepsFound<V>(c: Cache<V>, op: Op<V>, k: string)
    requires Spares(op, k) && (op.DoSet? ==> k in Keys(Step(c, op).store))
    ensures Find(Step(c, op).store, k) == Find(c.store, k)
  {
    FindWithout(c.store, op.key, k);
    FindIffKey(Step(c, op).store, k);
    match op
    case DoGet(key, now) =>
      if Find(c.store, key).Some? {
        FindAppend(Without(c.store, key), Find(c.store, key).value, k);
      }
    case DoSet(key, value, ttl, now) =>
      var entry := Entry(key, value, ExpiryOf(if ttl.Some? then ttl.value else c.ttl, now));
      FindAppend(Without(c.store, key), entry, k);
      FindNewest(Without(c.store, key) + [entry], c.max, k);
    case DoDelete(_) =>
  }

  lemma SpareStep<V>(c: Cache<V>, op: Op<V>, k: string, entry: Entry<V>, touched: set<string>)
    requires WellFormed(c) && Spares(op, k) && Held(c, k, entry, touched)
    requires |touched + set x | x in Touch(c, op)| < c.max
    ensures Held(Step(c, op), k, entry, touched + set x | x in Touch(c, op))
  {
    var keys := Keys(c.store);
    var recent := touched + set x | x in Touch(c, op);
    hide Keys, Without, WithoutKey, Find, Distinct, After;
    FindIffKey(c.store, k);
    KeysOfWithout(c.store, op.key);
    AfterWithout(keys, op.key, k);
    WithoutKeyFacts(keys, op.key);
    AppendDistinct(keys, op.key);
    FindIffKey(c.store, op.key);
    if op.DoSet? || (op.DoGet? && Get(c, op.key, op.now).1.Some?) {
      var moved := WithoutKey(keys, op.key) + [op.key];
      AfterAppend(WithoutKey(keys, op.key), op.key, k);
      TouchedStore(c, op);
      OutlivesEviction(moved, k, c.max, recent);
    }
    SpareKeepsFound(c, op, k);
  }

  lemma AfterAppend(keys: seq<string>, j: string, k: string)
    requires j != k
    ensures After(keys + [j], k) == After(keys, k) + [j]
  {
    assert (keys + [j])[..|keys|] == keys;
  }

  lemma {:induction false} SpareRun<V>(c: Cache<V>, ops: seq<Op<V>>, k: string, entry: Entry<V>)
    requires WellFormed(c) && Held(c, k, entry, {})
    requires forall op | op in ops :: Spares(op, k)
    requires |TouchedKeys(c, ops)| < c.max
    ensures WellFormed(Run(c, ops)) && Run(c, ops).max == c.max
    ensures Held(Run(c, ops), k, entry, TouchedKeys(c, ops))
  {
    RunWellFormed(c, ops);
    if ops != [] {
      var n := |ops| - 1;
      RunWellFormed(c, ops[..n]);
      var before, all := TouchedKeys(c, ops[..n]), TouchedKeys(c, ops);
      var step := set x | x in Touch(Run(c, ops[..n]), ops[n]);
      assert all == before + step;
      SubsetSize(before, all);
      hide Held, WellFormed, Touch;
      SpareRun(c, ops[..n], k, entry);
      SpareStep(Run(c, ops[..n]), ops[n], k, entry, before);
    }
  }

  lemma SubsetSize(a: set<string>, b: set<string>)
    requires a <= b
    ensures |a| <= |b|
  {
    if a != b {
      assert b == a + (b - a);
    }
  }

  lemma LastKeyServed<V>(c: Cache<V>, ops: seq<Op<V>>, now: nat)
    requires WellFormed(c) && c.store != []
    requires forall op | op in ops :: Spares(op, c.store[|c.store| - 1].key)
    requires |TouchedKeys(c, ops)| < c.max && Live(c.store[|c.store| - 1], now)
    ensures var entry := c.store[|c.store| - 1];
            Get(Run(c, ops), entry.key, now).1 == Some(entry.value)
  {
    var entry := c.store[|c.store| - 1];
    assert Held(c, entry.key, entry, {});
    SpareRun(c, ops, entry.key, entry);
  }

  lemma {:induction false} RunSplit<V>(c: Cache<V>, ops: seq<Op<V>>, i: nat)
    requires i <= |ops|
    ensures Run(c, ops) == Run(Run(c, ops[..i]), ops[i..])
  {
    hide Step;
    if i == |ops| {
      assert ops[..i] == ops;
    } else {
      var n := |ops| - 1;
      assert ops[..n][..i] == ops[..i] && ops[..n][i..] == ops[i..][..n - i];
      RunSplit(c, ops[..n], i);
    }
  }

  /** The entry that an operation leaves under the key it touches. */
  function Stamp<V>(c: Cache<V>, op: Op<V>): Entry<V>
    requires Touch(c, op) != []
  {
    match op
    case DoGet(key, _) => Find(c.store, key).value
    case DoSet(key, value, ttl, now) => Entry(key, value, ExpiryOf(if ttl.Some? then ttl.value else c.ttl, now))
  }

  lemma TouchedIsLast<V>(c: Cache<V>, op: Op<V>)
    requires Touch(c, op) != [] && c.max > 0
    ensures var store := Step(c, op).store;
            store != [] && store[|store| - 1] == Stamp(c, op) && Stamp(c, op).key == op.key
  {
    hide Without;
  }

  /**
   Retention in any run from the empty cache: if operation `i` is the last to touch its key and
   nothing removes the key afterwards, the key is still served, with the value it had then and
   until the end it had then, as long as fewer than `max` other keys have been touched since.
   */
  lemma RecentKeyServed<V>(max: nat, ttl: nat, ops: seq<Op<V>>, i: nat, now: nat)
    requires i < |ops| && Touch(Run(Cache([], max, ttl), ops[..i]), ops[i]) != []
    requires forall j | i < j < |ops| :: Spares(ops[j], ops[i].key)
    requires |TouchedKeys(Run(Cache([], max, ttl), ops[..i + 1]), ops[i + 1..])| < max
    requires Live(Stamp(Run(Cache([], max, ttl), ops[..i]), ops[i]), now)
    ensures Get(Run(Cache([], max, ttl), ops), ops[i].key, now).1
            == Some(Stamp(Run(Cache([], max, ttl), ops[..i]), ops[i]).value)
  {
    var start: Cache<V> := Cache([], max, ttl);
    var c, r := Run(start, ops[..i]), Run(start, ops[..i + 1]);
    assert ops[..i + 1][..i] == ops[..i];
    assert r == Step(c, ops[i]);
    RunWellFormed(start, ops[..i]);
    RunWellFormed(start, ops[..i + 1]);
    RunSplit(start, ops, i + 1);
    hide Run, Step, Touch, Touches, Stamp, Get, Live, WellFormed;
    TouchedIsLast(c, ops[i]);
    LastKeyServed(r, ops[i + 1..], now);
  }

  // ---------------------------------------------------------------- the cache itself

  class LRUCache<V> {
    var store: seq<Entry<V>>
    const max: nat
    const ttl: nat

    ghost function Value(): Cache<V>
      reads this
    {
      Cache(store, max, ttl)
    }

    constructor (max: nat, ttl: nat)
      ensures Value() == Cache([], max, ttl)
    {
      this.max, this.ttl, store := max, ttl, [];
    }

    method GetValue(key: string, now: nat) returns (r: Option<V>)
      modifies this
      ensures (Value(), r) == Get(old(Value()), key, now)
    {
      var found := Find(store, key);
      if found.None? {
        return None;
      }
      if found.value.expiry != 0 && now > found.value.expiry {
        store := Without(store, key);
        return None;
      }
      store := Without(store, key) + [found.value];
      return Some(found.value.value);
    }

    method SetValue(key: string, value: V, ttl: Option<nat>, now: nat)
      modifies this
      ensures Value() == Set(old(Value()), key, value, ttl, now)
    {
      hide Without, Find;
      var effective := if ttl.Some? then ttl.value else this.ttl;
      var expiry := if effective != 0 then now + effective else 0;
      store := Without(store, key) + [Entry(key, value, expiry)];
      ghost var full, k := store, 0;
      while |store| > max
        invariant 0 <= k <= |full| && (k > 0 ==> k <= |full| - max) && store == full[k..]
        decreases |store|
      {
        DropOne(full, k);
        store := store[1..];
        k := k + 1;
      }
      assert store == Newest(full, max);
    }

    method DeleteKey(key: string) returns (deleted: bool)
      modifies this
      ensures Value() == Delete(old(Value()), key)
      ensures deleted == Find(old(store), key).Some?
    {
      if Find(store, key).Some? {
        store := Without(store, key);
        return true;
      }
      WithoutAbsent(store, key);
      return false;
    }

    method ClearAll() returns (count: nat)
      modifies this
      ensures store == [] && count == |old(store)|
    {
      count := |store|;
      store := [];
    }
  }

  lemma DropOne<T>(items: seq<T>, k: nat)
    requires k < |items|
    ensures items[k..][1..] == items[k + 1..]
  {
  }

  lemma {:induction false} WithoutAbsent<V>(store: seq<Entry<V>>, key: string)
    requires Find(store, key).None?
    ensures Without(store, key) == store
  {
    if store != [] {
      WithoutAbsent(store[..|store| - 1], key);
    }
  }
}
