/**
 The two-level cache of backend/core/cache.py: an LRU cache in front of a shared store that
 does not fail. An L2 entry is served up to and including its expiry time. Every clock reading
 that a call takes is a parameter, since time passes between two of them.
 */
module TwoLevelCache {
  import opened Options
  import Lru = LruCache

  datatype Stored<V> = Stored(value: V, expiry: nat)

  datatype TwoLevel<V> = TwoLevel(ns: string, l1: Lru.Cache<V>, l2: map<string, Stored<V>>)

  function NsKey(ns: string, key: string): string {
    ns + ":" + key
  }

  function L2Get<V>(l2: map<string, Stored<V>>, key: string, now: nat): Option<V> {
    if key in l2 && (l2[key].expiry == 0 || now <= l2[key].expiry) then Some(l2[key].value) else None
  }

  /** The readings of one get: for looking into L1, for looking into L2, and for writing back to L1. */
  datatype Times = Times(l1Read: nat, l2Read: nat, l1Write: nat)

  function Get<V>(t: TwoLevel<V>, key: string, at: Times): (TwoLevel<V>, Option<V>) {
    var k := NsKey(t.ns, key);
    var (l1, hit) := Lru.Get(t.l1, k, at.l1Read);
    if hit.Some? then (t.(l1 := l1), hit)
    else match L2Get(t.l2, k, at.l2Read)
         case None => (t.(l1 := l1), None)
         case Some(v) => (t.(l1 := Lru.Set(l1, k, v, None, at.l1Write)), Some(v))
  }

  function Set<V>(t: TwoLevel<V>, key: string, value: V, l1Ttl: Option<nat>, l2Ttl: Option<nat>, l1At: nat, l2At: nat)
    : TwoLevel<V>
  {
    var k := NsKey(t.ns, key);
    t.(l1 := Lru.Set(t.l1, k, value, l1Ttl, l1At),
       l2 := t.l2[k := Stored(value, Lru.ExpiryOf(if l2Ttl.Some? then l2Ttl.value else 0, l2At))])
  }

  function Delete<V>(t: TwoLevel<V>, key: string): TwoLevel<V> {
    var k := NsKey(t.ns, key);
    t.(l1 := Lru.Delete(t.l1, k), l2 := t.l2 - {k})
  }

  // ---------------------------------------------------------------- runs

  datatype Op<V> =
    | DoGet(key: string, at: Times)
    | DoSet(key: string, value: V, l1Ttl: Option<nat>, l2Ttl: Option<nat>, l1At: nat, l2At: nat)
    | DoDelete(key: string)

  function Step<V>(t: TwoLevel<V>, op: Op<V>): TwoLevel<V> {
    match op
    case DoGet(key, at) => Get(t, key, at).0
    case DoSet(key, value, l1Ttl, l2Ttl, l1At, l2At) => Set(t, key, value, l1Ttl, l2Ttl, l1At, l2At)
    case DoDelete(key) => Delete(t, key)
  }

  function Run<V>(t: TwoLevel<V>, ops: seq<Op<V>>): TwoLevel<V> {
    if ops == [] then t else Step(Run(t, ops[..|ops| - 1]), ops[|ops| - 1])
  }

  function Empty<V>(ns: string, size: nat, ttl: nat): TwoLevel<V> {
    TwoLevel(ns, Lru.Cache([], size, ttl), map[])
  }

  /** A value found in L2 is written to L1 at most `gap` after L2 was read. */
  predicate Prompt<V>(op: Op<V>, gap: nat) {
    op.DoGet? ==> op.at.l1Write <= op.at.l2Read + gap
  }

  predicate AllPrompt<V>(ops: seq<Op<V>>, gap: nat) {
    forall i | 0 <= i < |ops| :: Prompt(ops[i], gap)
  }

  /** What a key was last set to, and until when each level was told to keep it (0 for ever). */
  datatype Setting<V> = Setting(value: V, l1Until: nat, l2Until: nat)

  /** The plain map that the facade stands for. */
  function PlainStep<V>(m: map<string, Setting<V>>, op: Op<V>, ttl: nat): map<string, Setting<V>> {
    match op
    case DoGet(_, _) => m
    case DoSet(key, value, l1Ttl, l2Ttl, l1At, l2At) =>
      m[key := Setting(value, Lru.ExpiryOf(if l1Ttl.Some? then l1Ttl.value else ttl, l1At),
                       Lru.ExpiryOf(if l2Ttl.Some? then l2Ttl.value else 0, l2At))]
    case DoDelete(key) => m - {key}
  }

  function PlainRun<V>(ops: seq<Op<V>>, ttl: nat): map<string, Setting<V>> {
    if ops == [] then map[] else PlainStep(PlainRun(ops[..|ops| - 1], ttl), ops[|ops| - 1], ttl)
  }

  // ---------------------------------------------------------------- the facade stands for the map

  /** How late an L1 entry may expire: as set, or promoted from the last moment of the L2 entry. */
  predicate InTime<V>(expiry: nat, s: Setting<V>, ttl: nat, gap: nat) {
    || (expiry == s.l1Until)
    || (if ttl == 0 then expiry == 0 else expiry != 0 && (s.l2Until == 0 || expiry <= s.l2Until + gap + ttl))
  }

  /** Both levels hold nothing but what the map holds; L2 holds all of it. */
  ghost predicate Backed<V>(t: TwoLevel<V>, m: map<string, Setting<V>>, ttl: nat, gap: nat) {
    && t.l1.ttl == ttl
    && (forall key :: key in m <==> NsKey(t.ns, key) in t.l2)
    && (forall key | key in m :: t.l2[NsKey(t.ns, key)] == Stored(m[key].value, m[key].l2Until))
    && (forall key :: L1Backed(t, m, key, ttl, gap))
  }

  ghost predicate L1Backed<V>(t: TwoLevel<V>, m: map<string, Setting<V>>, key: string, ttl: nat, gap: nat) {
    var found := Lru.Find(t.l1.store, NsKey(t.ns, key));
    found.Some? ==> key in m && found.value.value == m[key].value && InTime(found.value.expiry, m[key], ttl, gap)
  }

  lemma NsKeyInjective(ns: string, a: string, b: string)
    requires NsKey(ns, a) == NsKey(ns, b)
    ensures a == b
  {
    assert a == NsKey(ns, a)[|ns| + 1..] && b == NsKey(ns, b)[|ns| + 1..];
  }

  /** What an L1 update at `k` with entry `e` can leave under another key, and under `k` itself. */
  lemma AfterMove<V>(c: Lru.Cache<V>, k: string, e: Lru.Entry<V>, other: string)
    requires e.key == k
    ensures var moved := Lru.Without(c.store, k) + [e];
            && Lru.Find(moved, other) == (if other == k then Some(e) else Lru.Find(c.store, other))
            && (Lru.Find(Lru.Newest(moved, c.max), other).Some?
                ==> Lru.Find(Lru.Newest(moved, c.max), other) == Lru.Find(moved, other))
  {
    var moved := Lru.Without(c.store, k) + [e];
    Lru.FindAppend(Lru.Without(c.store, k), e, other);
    if other != k {
      Lru.FindWithout(c.store, k, other);
    }
    if Lru.Find(Lru.Newest(moved, c.max), other).Some? {
      Lru.FindNewest(moved, c.max, other);
    }
  }

  lemma {:induction false} FindAfterWithout<V>(store: seq<Lru.Entry<V>>, k: string, other: string)
    ensures Lru.Find(Lru.Without(store, k), other) == if other == k then None else Lru.Find(store, other)
  {
    if other != k {
      Lru.FindWithout(store, k, other);
    } else if store != [] {
      FindAfterWithout(store[..|store| - 1], k, k);
      var rest, e := Lru.Without(store[..|store| - 1], k), store[|store| - 1];
      if e.key != k {
        Lru.FindAppend(rest, e, k);
      } else {
        assert rest + [] == rest;
      }
    }
  }

  /** One L1 operation changes the entry of its own key only; eviction can only remove. */
  ghost predicate OnlyAt<V>(before: Lru.Cache<V>, after: Lru.Cache<V>, k: string) {
    && after.ttl == before.ttl
    && forall other | other != k :: Lru.Find(after.store, other).Some?
         ==> Lru.Find(after.store, other) == Lru.Find(before.store, other)
  }

  lemma SetOnlyAt<V>(c: Lru.Cache<V>, k: string, value: V, ttl: Option<nat>, now: nat)
    ensures OnlyAt(c, Lru.Set(c, k, value, ttl, now), k)
    ensures var found := Lru.Find(Lru.Set(c, k, value, ttl, now).store, k);
            found.Some? ==> found.value.value == value
                            && found.value.expiry == Lru.ExpiryOf(if ttl.Some? then ttl.value else c.ttl, now)
  {
    hide Lru.Find, Lru.Without;
    var e := Lru.Entry(k, value, Lru.ExpiryOf(if ttl.Some? then ttl.value else c.ttl, now));
    forall other {
      AfterMove(c, k, e, other);
    }
  }

  lemma GetOnlyAt<V>(c: Lru.Cache<V>, k: string, now: nat)
    ensures OnlyAt(c, Lru.Get(c, k, now).0, k)
    ensures var found := Lru.Find(Lru.Get(c, k, now).0.store, k);
            found.Some? ==> found == Lru.Find(c.store, k)
    ensures Lru.Get(c, k, now).1.Some? ==>
              var e := Lru.Find(c.store, k);
              e.Some? && e.value.value == Lru.Get(c, k, now).1.value && Lru.Live(e.value, now)
  {
    hide Lru.Without;
    forall other
      ensures other != k && Lru.Find(Lru.Get(c, k, now).0.store, other).Some?
              ==> Lru.Find(Lru.Get(c, k, now).0.store, other) == Lru.Find(c.store, other)
      ensures other == k && Lru.Find(Lru.Get(c, k, now).0.store, k).Some?
              ==> Lru.Find(Lru.Get(c, k, now).0.store, k) == Lru.Find(c.store, k)
    {
      FindAfterWithout(c.store, k, other);
      if Lru.Find(c.store, k).Some? {
        AfterMove(c, k, Lru.Find(c.store, k).value, other);
      }
    }
  }

  lemma DeleteOnlyAt<V>(c: Lru.Cache<V>, k: string)
    ensures OnlyAt(c, Lru.Delete(c, k), k) && Lru.Find(Lru.Delete(c, k).store, k).None?
  {
    forall other {
      FindAfterWithout(c.store, k, other);
    }
  }

  /** If L1 changed at `key` only, it is enough to look at `key`. */
  lemma StillBacked<V>(t: TwoLevel<V>, m: map<string, Setting<V>>, t': TwoLevel<V>, m': map<string, Setting<V>>,
                       key: string, ttl: nat, gap: nat)
    requires Backed(t, m, ttl, gap) && t'.ns == t.ns && OnlyAt(t.l1, t'.l1, NsKey(t.ns, key))
    requires key in m' <==> NsKey(t.ns, key) in t'.l2
    requires key in m' ==> t'.l2[NsKey(t.ns, key)] == Stored(m'[key].value, m'[key].l2Until)
    requires m' - {key} == m - {key} && t'.l2 - {NsKey(t.ns, key)} == t.l2 - {NsKey(t.ns, key)}
    requires L1Backed(t', m', key, ttl, gap)
    ensures Backed(t', m', ttl, gap)
  {
    hide Lru.Find, NsKey;
    forall other
      ensures other in m' <==> NsKey(t.ns, other) in t'.l2
      ensures other in m' ==> t'.l2[NsKey(t.ns, other)] == Stored(m'[other].value, m'[other].l2Until)
      ensures L1Backed(t', m', other, ttl, gap)
    {
      if other != key {
        var k, o := NsKey(t.ns, key), NsKey(t.ns, other);
        if k == o {
          NsKeyInjective(t.ns, key, other);
        }
        assert other in m' <==> other in m' - {key};
        assert other in m <==> other in m - {key};
        assert o in t'.l2 <==> o in t'.l2 - {k};
        assert o in t.l2 <==> o in t.l2 - {k};
        assert other in m ==> m[other] == (m - {key})[other];
        assert other in m' ==> m'[other] == (m' - {key})[other];
        assert o in t.l2 ==> t.l2[o] == (t.l2 - {k})[o];
        assert o in t'.l2 ==> t'.l2[o] == (t'.l2 - {k})[o];
        assert L1Backed(t, m, other, ttl, gap);
      }
    }
  }

  lemma StepBacked<V>(t: TwoLevel<V>, m: map<string, Setting<V>>, op: Op<V>, ttl: nat, gap: nat)
    requires Backed(t, m, ttl, gap) && Prompt(op, gap)
    ensures Backed(Step(t, op), PlainStep(m, op, ttl), ttl, gap)
  {
    var k := NsKey(t.ns, op.key);
    var t', m' := Step(t, op), PlainStep(m, op, ttl);
    assert L1Backed(t, m, op.key, ttl, gap);
    hide Lru.Find, Lru.Without, Lru.Newest, NsKey, Lru.Set, Lru.Delete;
    match op
    case DoGet(key, at) =>
      GetBacked(t, m, key, at, ttl, gap);
    case DoSet(key, value, l1Ttl, _, l1At, _) =>
      SetOnlyAt(t.l1, k, value, l1Ttl, l1At);
      StillBacked(t, m, t', m', key, ttl, gap);
    case DoDelete(key) =>
      DeleteOnlyAt(t.l1, k);
      StillBacked(t, m, t', m', key, ttl, gap);
  }

  lemma GetBacked<V>(t: TwoLevel<V>, m: map<string, Setting<V>>, key: string, at: Times, ttl: nat, gap: nat)
    requires Backed(t, m, ttl, gap) && at.l1Write <= at.l2Read + gap
    ensures Backed(Get(t, key, at).0, m, ttl, gap)
  {
    var k := NsKey(t.ns, key);
    var t' := Get(t, key, at).0;
    var (l1, hit) := Lru.Get(t.l1, k, at.l1Read);
    assert L1Backed(t, m, key, ttl, gap);
    hide Lru.Find, Lru.Without, Lru.Newest, NsKey, Lru.Set, Lru.Get;
    GetOnlyAt(t.l1, k, at.l1Read);
    if hit.None? && L2Get(t.l2, k, at.l2Read).Some? {
      SetOnlyAt(l1, k, L2Get(t.l2, k, at.l2Read).value, None, at.l1Write);
    }
    StillBacked(t, m, t', m, key, ttl, gap);
  }

  lemma {:induction false} RunBacked<V>(ns: string, size: nat, ttl: nat, gap: nat, ops: seq<Op<V>>)
    requires AllPrompt(ops, gap)
    ensures Backed(Run(Empty(ns, size, ttl), ops), PlainRun(ops, ttl), ttl, gap)
  {
    if ops != [] {
      var n := |ops| - 1;
      assert AllPrompt(ops[..n], gap) && Prompt(ops[n], gap);
      RunBacked(ns, size, ttl, gap, ops[..n]);
      StepBacked(Run(Empty(ns, size, ttl), ops[..n]), PlainRun(ops[..n], ttl), ops[n], ttl, gap);
    }
  }

  /** The longest delay of an L1 write in a run. */
  function Slowest<V>(ops: seq<Op<V>>): (gap: nat)
    ensures AllPrompt(ops, gap)
  {
    if ops == [] then 0
    else
      var rest := Slowest(ops[..|ops| - 1]);
      var op := ops[|ops| - 1];
      if op.DoGet? && op.at.l1Write > op.at.l2Read + rest then op.at.l1Write - op.at.l2Read else rest
  }

  /** No operation asks for an L2 time to live. */
  predicate NoL2Ttl<V>(ops: seq<Op<V>>) {
    forall i | 0 <= i < |ops| :: ops[i].DoSet? && ops[i].l2Ttl.Some? ==> ops[i].l2Ttl.value == 0
  }

  /**
   Transparency: without an L2 time to live, a get after any run answers as a plain map would,
   whatever L1 has evicted or let expire, whatever its size and however slow its writes.
   */
  lemma Transparent<V>(ns: string, size: nat, ttl: nat, ops: seq<Op<V>>, key: string, at: Times)
    requires NoL2Ttl(ops)
    ensures var m := PlainRun(ops, ttl);
            Get(Run(Empty(ns, size, ttl), ops), key, at).1 == if key in m then Some(m[key].value) else None
  {
    var gap := Slowest(ops);
    RunBacked(ns, size, ttl, gap, ops);
    NeverUntil(ops, ttl);
    var t, m := Run(Empty(ns, size, ttl), ops), PlainRun(ops, ttl);
    assert L1Backed(t, m, key, ttl, gap);
  }

  lemma {:induction false} NeverUntil<V>(ops: seq<Op<V>>, ttl: nat)
    requires NoL2Ttl(ops)
    ensures forall key | key in PlainRun(ops, ttl) :: PlainRun(ops, ttl)[key].l2Until == 0
  {
    if ops != [] {
      var n := |ops| - 1;
      NeverUntil(ops[..n], ttl);
    }
  }

  /** The reading at which an answer was found: that of L1 if L1 had it, that of L2 otherwise. */
  function FoundAt<V>(t: TwoLevel<V>, key: string, at: Times): nat {
    if Lru.Get(t.l1, NsKey(t.ns, key), at.l1Read).1.Some? then at.l1Read else at.l2Read
  }

  /**
   Staleness: with a positive L1 default and L1 written at most `gap` after L2 is read, a value is
   served only while the key is set to it, and never later than the end L1 was given or the end
   L2 was given plus the gap and the L1 default.
   */
  lemma StalenessBounded<V>(ns: string, size: nat, ttl: nat, gap: nat, ops: seq<Op<V>>, key: string, at: Times)
    requires ttl > 0 && AllPrompt(ops, gap) && Get(Run(Empty(ns, size, ttl), ops), key, at).1.Some?
    ensures var t, m := Run(Empty(ns, size, ttl), ops), PlainRun(ops, ttl);
            && key in m && Get(t, key, at).1 == Some(m[key].value)
            && (m[key].l1Until == 0 || m[key].l2Until == 0
                || FoundAt(t, key, at) <= m[key].l1Until || FoundAt(t, key, at) <= m[key].l2Until + gap + ttl)
  {
    RunBacked(ns, size, ttl, gap, ops);
    var t, m := Run(Empty(ns, size, ttl), ops), PlainRun(ops, ttl);
    assert L1Backed(t, m, key, ttl, gap);
  }

  // ---------------------------------------------------------------- promoted values

  /** The get misses L1 and finds the key in L2, where it has an end. */
  predicate Promotes<V>(t: TwoLevel<V>, key: string, at: Times) {
    var k := NsKey(t.ns, key);
    Lru.Get(t.l1, k, at.l1Read).1.None? && L2Get(t.l2, k, at.l2Read).Some? && t.l2[k].expiry > 0
  }

  /** No operation sets or deletes the key. */
  predicate LeavesAlone<V>(ops: seq<Op<V>>, key: string) {
    forall i | 0 <= i < |ops| :: ops[i].DoGet? || ops[i].key != key
  }

  /** L2 holds the key until `stored.expiry`, and L1 holds no other value of it and none too long. */
  ghost predicate Bounded<V>(t: TwoLevel<V>, key: string, stored: Stored<V>, gap: nat) {
    var k := NsKey(t.ns, key);
    var found := Lru.Find(t.l1.store, k);
    && k in t.l2 && t.l2[k] == stored
    && (found.Some? ==>
          && t.l1.max > 0 && found.value.value == stored.value
          && 0 < found.value.expiry <= stored.expiry + gap + t.l1.ttl)
  }

  /** L1 gives what it promotes an end, or cannot hold anything. */
  predicate Forgets<V>(c: Lru.Cache<V>) {
    c.ttl > 0 || c.max == 0
  }

  lemma NothingHeld<V>(c: Lru.Cache<V>, k: string, value: V, ttl: Option<nat>, now: nat)
    requires c.max == 0
    ensures Lru.Find(Lru.Set(c, k, value, ttl, now).store, k).None?
  {
    assert Lru.Set(c, k, value, ttl, now).store == [];
  }

  lemma GetStaysBounded<V>(t: TwoLevel<V>, other: string, at: Times, key: string, stored: Stored<V>, gap: nat)
    requires Forgets(t.l1) && stored.expiry > 0 && at.l1Write <= at.l2Read + gap
    requires if other == key then NsKey(t.ns, key) in t.l2 && t.l2[NsKey(t.ns, key)] == stored
                                  && (Bounded(t, key, stored, gap) || Promotes(t, key, at))
             else Bounded(t, key, stored, gap)
    ensures Bounded(Get(t, other, at).0, key, stored, gap)
  {
    var k := NsKey(t.ns, other);
    var (l1, hit) := Lru.Get(t.l1, k, at.l1Read);
    if other != key && k == NsKey(t.ns, key) {
      NsKeyInjective(t.ns, other, key);
    }
    GetOnlyAt(t.l1, k, at.l1Read);
    if hit.None? {
      MissedIsGone(t.l1, k, at.l1Read);
    }
    if hit.None? && L2Get(t.l2, k, at.l2Read).Some? {
      var value := L2Get(t.l2, k, at.l2Read).value;
      SetOnlyAt(l1, k, value, None, at.l1Write);
      if l1.max == 0 {
        NothingHeld(l1, k, value, None, at.l1Write);
      }
    }
  }

  lemma MissedIsGone<V>(c: Lru.Cache<V>, k: string, now: nat)
    requires Lru.Get(c, k, now).1.None?
    ensures Lru.Find(Lru.Get(c, k, now).0.store, k).None?
  {
    FindAfterWithout(c.store, k, k);
  }

  lemma StepStaysBounded<V>(t: TwoLevel<V>, op: Op<V>, key: string, stored: Stored<V>, gap: nat)
    requires Bounded(t, key, stored, gap) && Forgets(t.l1) && stored.expiry > 0
    requires Prompt(op, gap) && (op.DoGet? || op.key != key)
    ensures Bounded(Step(t, op), key, stored, gap) && SameSettings(t, Step(t, op))
  {
    var k := NsKey(t.ns, op.key);
    if op.key != key && k == NsKey(t.ns, key) {
      NsKeyInjective(t.ns, op.key, key);
    }
    match op
    case DoGet(other, at) => GetStaysBounded(t, other, at, key, stored, gap);
    case DoSet(_, value, l1Ttl, _, l1At, _) => SetOnlyAt(t.l1, k, value, l1Ttl, l1At);
    case DoDelete(_) => DeleteOnlyAt(t.l1, k);
  }

  predicate SameSettings<V>(a: TwoLevel<V>, b: TwoLevel<V>) {
    a.ns == b.ns && a.l1.max == b.l1.max && a.l1.ttl == b.l1.ttl
  }

  lemma {:induction false} RunStaysBounded<V>(t: TwoLevel<V>, ops: seq<Op<V>>, key: string, stored: Stored<V>, gap: nat)
    requires Bounded(t, key, stored, gap) && Forgets(t.l1) && stored.expiry > 0
    requires AllPrompt(ops, gap) && LeavesAlone(ops, key)
    ensures Bounded(Run(t, ops), key, stored, gap) && SameSettings(t, Run(t, ops))
  {
    if ops != [] {
      hide Bounded, Step;
      var n := |ops| - 1;
      assert AllPrompt(ops[..n], gap) && Prompt(ops[n], gap);
      RunStaysBounded(t, ops[..n], key, stored, gap);
      StepStaysBounded(Run(t, ops[..n]), ops[n], key, stored, gap);
    }
  }

  /** A later answer, if any, is the value promoted, found within `slack` of its L2 end plus the L1 default. */
  ghost predicate OnTime<V>(t: TwoLevel<V>, key: string, at: Times, ops: seq<Op<V>>, last: Times, slack: nat)
    requires Promotes(t, key, at)
  {
    var stored := t.l2[NsKey(t.ns, key)];
    var r := Run(Get(t, key, at).0, ops);
    Get(r, key, last).1.Some? ==>
      && Get(r, key, last).1.value == stored.value
      && FoundAt(r, key, last) <= stored.expiry + slack + t.l1.ttl
  }

  /**
   A promoted value is served no later than its L2 end plus the L1 default and the longest delay
   between reading L2 and writing L1: whatever L1 was told when the value was set, and over any
   later run that neither sets nor deletes the key.
   */
  lemma PromotedOnTime<V>(t: TwoLevel<V>, key: string, at: Times, ops: seq<Op<V>>, last: Times, gap: nat)
    requires Promotes(t, key, at) && Forgets(t.l1)
    requires at.l1Write <= at.l2Read + gap && AllPrompt(ops, gap) && LeavesAlone(ops, key)
    ensures OnTime(t, key, at, ops, last, if t.l1.max == 0 then 0 else gap)
  {
    var stored := t.l2[NsKey(t.ns, key)];
    var start := Get(t, key, at).0;
    GetStaysBounded(t, key, at, key, stored, gap);
    RunStaysBounded(start, ops, key, stored, gap);
    GetOnlyAt(Run(start, ops).l1, NsKey(t.ns, key), last.l1Read);
  }

  /** A promoted value is served from L1 until the L1 default has passed since L1 was written. */
  lemma PromotedServed<V>(t: TwoLevel<V>, key: string, at: Times, last: Times)
    requires t.l1.max > 0 && Promotes(t, key, at)
    requires t.l1.ttl == 0 || last.l1Read <= at.l1Write + t.l1.ttl
    ensures var r := Get(t, key, at).0;
            Get(r, key, last).1 == Some(t.l2[NsKey(t.ns, key)].value) && FoundAt(r, key, last) == last.l1Read
  {
    var k := NsKey(t.ns, key);
    var value := L2Get(t.l2, k, at.l2Read).value;
    var promoted := Lru.Set(Lru.Get(t.l1, k, at.l1Read).0, k, value, None, at.l1Write);
    assert promoted.store[|promoted.store| - 1] == Lru.Entry(k, value, Lru.ExpiryOf(t.l1.ttl, at.l1Write));
  }

  // ---------------------------------------------------------------- how late, exactly

  function ReadingsOf<V>(op: Op<V>): seq<nat> {
    match op
    case DoGet(_, at) => [at.l1Read, at.l2Read, at.l1Write]
    case DoSet(_, _, _, _, l1At, l2At) => [l1At, l2At]
    case DoDelete(_) => []
  }

  function Readings<V>(ops: seq<Op<V>>): seq<nat> {
    if ops == [] then [] else Readings(ops[..|ops| - 1]) + ReadingsOf(ops[|ops| - 1])
  }

  /** A run in which the clock does not go back and every L1 write comes at most `gap` after its L2 reading. */
  predicate Timed<V>(ops: seq<Op<V>>, gap: nat) {
    var times := Readings(ops);
    (forall i, j | 0 <= i < j < |times| :: times[i] <= times[j]) && AllPrompt(ops, gap)
  }

  /** In every timed run from empty levels, what a get promotes is on time for every later get. */
  ghost predicate AlwaysOnTime<V(!new)>(ns: string, size: nat, ttl: nat, gap: nat, slack: nat) {
    forall before: seq<Op<V>>, key, at, ops, last |
      Promotes(Run(Empty(ns, size, ttl), before), key, at) && LeavesAlone(ops, key)
      && Timed(before + [DoGet(key, at)] + ops + [DoGet(key, last)], gap) ::
      OnTime(Run(Empty(ns, size, ttl), before), key, at, ops, last, slack)
  }

  /**
   Where L1 writes may come up to `gap` late, promoted values are always served within `slack` of
   their L2 end plus the L1 default exactly when L1 holds nothing, or has a default end and the
   slack covers the gap.
   */
  lemma OnTimeIff<V(!new)>(ns: string, size: nat, ttl: nat, gap: nat, slack: nat, v: V)
    ensures AlwaysOnTime<V>(ns, size, ttl, gap, slack) <==> size == 0 || (ttl > 0 && gap <= slack)
  {
    hide Run, Promotes, OnTime, LeavesAlone, Timed;
    if size == 0 || (ttl > 0 && gap <= slack) {
      forall before: seq<Op<V>>, key, at, ops, last |
        Promotes(Run(Empty(ns, size, ttl), before), key, at) && LeavesAlone(ops, key)
        && Timed(before + [DoGet(key, at)] + ops + [DoGet(key, last)], gap)
        ensures OnTime(Run(Empty(ns, size, ttl), before), key, at, ops, last, slack)
      {
        SettingsStay(ns, size, ttl, before);
        TimedIsOnTime(Run(Empty(ns, size, ttl), before), before, key, at, ops, last, gap, slack);
      }
    } else {
      var before, at, last := LateAnswer(ns, size, ttl, gap, slack, v);
      assert before + [DoGet("", at)] + [] + [DoGet("", last)] == before + [DoGet("", at), DoGet("", last)];
    }
  }

  lemma TimedIsOnTime<V>(t: TwoLevel<V>, before: seq<Op<V>>, key: string, at: Times, ops: seq<Op<V>>, last: Times,
                         gap: nat, slack: nat)
    requires Promotes(t, key, at) && LeavesAlone(ops, key) && (t.l1.max == 0 || (t.l1.ttl > 0 && gap <= slack))
    requires Timed(before + [DoGet(key, at)] + ops + [DoGet(key, last)], gap)
    ensures OnTime(t, key, at, ops, last, slack)
  {
    var run := before + [DoGet(key, at)] + ops + [DoGet(key, last)];
    hide Readings;
    assert run[|before|] == DoGet(key, at) && Prompt(run[|before|], gap);
    forall i | 0 <= i < |ops|
      ensures Prompt(ops[i], gap)
    {
      assert run[|before| + 1 + i] == ops[i];
    }
    hide Promotes, Run, Get, FoundAt;
    PromotedOnTime(t, key, at, ops, last, gap);
  }

  lemma {:induction false} SettingsStay<V>(ns: string, size: nat, ttl: nat, ops: seq<Op<V>>)
    ensures SameSettings(Empty(ns, size, ttl), Run(Empty(ns, size, ttl), ops))
  {
    if ops != [] {
      SettingsStay(ns, size, ttl, ops[..|ops| - 1]);
    }
  }

  /**
   A key that L1 kept until 2 is read from L2 at its end, 11, and written to L1 `gap` later; at
   the end it has there, or at any time if it has none, it is still served.
   */
  lemma LateAnswer<V>(ns: string, size: nat, ttl: nat, gap: nat, slack: nat, v: V)
    returns (before: seq<Op<V>>, at: Times, last: Times)
    requires size > 0 && (ttl == 0 || slack < gap)
    ensures var t := Run(Empty(ns, size, ttl), before);
            Promotes(t, "", at) && LeavesAlone<V>([], "") && !OnTime(t, "", at, [], last, slack)
    ensures Timed(before + [DoGet("", at), DoGet("", last)], gap)
  {
    var late := 11 + gap + if ttl == 0 then slack + 1 else ttl;
    before, at, last := [DoSet("", v, Some(1), Some(10), 1, 1)], Times(11, 11, 11 + gap), Times(late, late, late);
    OnlyOneSet(ns, size, ttl, v, before);
    var t := Run(Empty(ns, size, ttl), before);
    PromotedServed(t, "", at, last);
    assert Run(Get(t, "", at).0, []) == Get(t, "", at).0;
    hide Run, Get, Timed, OnTime;
    SetGetGetTimed(v, at, last, gap);
  }

  lemma ReadingsAppend<V>(ops: seq<Op<V>>, op: Op<V>)
    ensures Readings(ops + [op]) == Readings(ops) + ReadingsOf(op)
  {
    assert (ops + [op])[..|ops|] == ops;
  }

  lemma ReadingsOfThree<V>(a: Op<V>, b: Op<V>, c: Op<V>)
    ensures Readings([a] + [b, c]) == ReadingsOf(a) + ReadingsOf(b) + ReadingsOf(c)
  {
    assert [a] + [b, c] == [a] + [b] + [c] && [] + [a] == [a];
    ReadingsAppend([], a);
    ReadingsAppend([a], b);
    ReadingsAppend([a] + [b], c);
    assert [] + ReadingsOf(a) == ReadingsOf(a);
    hide ReadingsOf;
  }

  lemma SetGetGetTimed<V>(v: V, at: Times, last: Times, gap: nat)
    requires 1 <= at.l1Read <= at.l2Read <= at.l1Write <= last.l1Read <= last.l2Read <= last.l1Write
    requires at.l1Write <= at.l2Read + gap && last.l1Write <= last.l2Read + gap
    ensures Timed([DoSet("", v, Some(1), Some(10), 1, 1)] + [DoGet("", at), DoGet("", last)], gap)
  {
    hide Readings;
    ReadingsOfThree(DoSet("", v, Some(1), Some(10), 1, 1), DoGet("", at), DoGet("", last));
  }

  lemma OnlyOneSet<V>(ns: string, size: nat, ttl: nat, v: V, ops: seq<Op<V>>)
    requires size > 0 && ops == [DoSet("", v, Some(1), Some(10), 1, 1)]
    ensures var t := Run(Empty(ns, size, ttl), ops);
            && t.ns == ns && t.l1.max == size && t.l1.ttl == ttl && t.l1.store == [Lru.Entry(NsKey(ns, ""), v, 2)]
            && t.l2 == map[NsKey(ns, "") := Stored(v, 11)]
            && forall now | now > 2 :: Lru.Get(t.l1, NsKey(ns, ""), now).1.None?
  {
    var e: TwoLevel<V> := Empty(ns, size, ttl);
    assert ops[..0] == [] && Run(e, ops[..0]) == e;
    assert Run(e, ops) == Set(e, "", v, Some(1), Some(10), 1, 1);
    assert Lru.Without(e.l1.store, NsKey(ns, "")) == [];
  }

  // ---------------------------------------------------------------- namespaces

  /**
   Two namespaces can produce the same stored key exactly when one of them, with its colon, is
   a prefix of the other with its colon.
   */
  lemma NamespacesCollideIff(a: string, b: string)
    ensures (exists x, y :: NsKey(a, x) == NsKey(b, y)) <==> a + ":" <= b + ":" || b + ":" <= a + ":"
  {
    if a + ":" <= b + ":" {
      var x := (b + ":")[|a| + 1..];
      assert NsKey(a, x) == NsKey(b, "");
    }
    if b + ":" <= a + ":" {
      var y := (a + ":")[|b| + 1..];
      assert NsKey(a, "") == NsKey(b, y);
    }
    forall x, y | NsKey(a, x) == NsKey(b, y)
      ensures a + ":" <= b + ":" || b + ":" <= a + ":"
    {
      var whole := NsKey(a, x);
      assert whole[..|a| + 1] == a + ":" && whole[..|b| + 1] == b + ":";
      if |a| <= |b| {
        assert (b + ":")[..|a| + 1] == a + ":";
      } else {
        assert (a + ":")[..|b| + 1] == b + ":";
      }
    }
  }

  // ---------------------------------------------------------------- the cache itself

  class TwoLevelStore<V> {
    const ns: string
    const l1: Lru.LRUCache<V>
    var l2: map<string, Stored<V>>

    ghost function Value(): TwoLevel<V>
      reads this, l1
    {
      TwoLevel(ns, l1.Value(), l2)
    }

    constructor (ns: string, size: nat, ttl: nat)
      ensures fresh(l1) && Value() == Empty(ns, size, ttl)
    {
      this.ns := ns;
      l1 := new Lru.LRUCache<V>(size, ttl);
      l2 := map[];
    }

    method GetValue(key: string, at: Times) returns (r: Option<V>)
      modifies this, l1
      ensures (Value(), r) == Get(old(Value()), key, at)
    {
      var k := NsKey(ns, key);
      r := l1.GetValue(k, at.l1Read);
      if r.Some? {
        return;
      }
      r := L2Get(l2, k, at.l2Read);
      if r.Some? {
        l1.SetValue(k, r.value, None, at.l1Write);
      }
    }

    method SetValue(key: string, value: V, l1Ttl: Option<nat>, l2Ttl: Option<nat>, l1At: nat, l2At: nat)
      modifies this, l1
      ensures Value() == Set(old(Value()), key, value, l1Ttl, l2Ttl, l1At, l2At)
    {
      var k := NsKey(ns, key);
      l1.SetValue(k, value, l1Ttl, l1At);
      var expiry := if l2Ttl.Some? && l2Ttl.value != 0 then l2At + l2Ttl.value else 0;
      l2 := l2[k := Stored(value, expiry)];
    }

    method DeleteKey(key: string)
      modifies this, l1
      ensures Value() == Delete(old(Value()), key)
    {
      var k := NsKey(ns, key);
      var deleted := l1.DeleteKey(k);
      l2 := l2 - {k};
    }
  }
}
