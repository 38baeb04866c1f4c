/** The tamper-evident audit chain of backend/core/audit_log_v21.py. */
module AuditLog {
  import opened HashChain
  import opened Text

  const MAX_RECORDS := 50_000
  const MAX_AGE_SECONDS := 720 * 3600

  const REQUIRES_REASON := {
    "license.revoked", "license.suspended", "rbac.role_changed", "rbac.user_blocked",
    "rbac.user_deleted", "risk.kill_switch.activated", "risk.kill_switch.reset", "risk.halt",
    "billing.refund", "admin.impersonate", "admin.force_logout", "tenant.suspend", "tenant.purge"
  }

  /** The fields that enter the digest; `detail` is the serialised detail. */
  datatype Canonical = Canonical(id: string, event: string, ts: int, userId: string,
                                 tenantId: string, reason: string, detail: string)

  datatype AuditRecord = AuditRecord(
    id: string, seqNo: nat, event: string, severity: string, ts: int, userId: string,
    tenantId: string, actorId: string, ip: string, reason: string, detail: string,
    chainHash: Digest<Canonical>, prevHash: Digest<Canonical>)
  {
    function Hashed(): Canonical {
      Canonical(id, event, ts, userId, tenantId, reason, detail)
    }
  }

  datatype RecordResult = Recorded(rec: AuditRecord) | MissingReason

  // ---------------------------------------------------------------- reading a chain

  function StoredBefore(recs: seq<AuditRecord>, i: nat): Digest<Canonical>
    requires i <= |recs|
  {
    if i == 0 then Genesis else recs[i - 1].chainHash
  }

  /** Record `i` does not fit the digest stored before it. */
  predicate Broken(recs: seq<AuditRecord>, i: nat)
    requires i < |recs|
  {
    || recs[i].chainHash != Mac(StoredBefore(recs, i), recs[i].Hashed())
    || recs[i].prevHash != StoredBefore(recs, i)
  }

  predicate Verified(recs: seq<AuditRecord>) {
    forall i | 0 <= i < |recs| :: !Broken(recs, i)
  }

  /** The sequence numbers of the records at the given positions, in chain order. */
  function SeqNosAt(recs: seq<AuditRecord>, positions: set<nat>): seq<nat> {
    if recs == [] then []
    else
      var n := |recs| - 1;
      SeqNosAt(recs[..n], positions) + if n in positions then [recs[n].seqNo] else []
  }

  function BrokenPositions(recs: seq<AuditRecord>): set<nat> {
    set i: nat | i < |recs| && Broken(recs, i)
  }

  function Links(recs: seq<AuditRecord>): (links: seq<Link<Canonical>>)
    ensures |links| == |recs|
  {
    seq(|recs|, i requires 0 <= i < |recs| => Link(recs[i].Hashed(), recs[i].chainHash))
  }

  lemma VerifiedIsIntact(recs: seq<AuditRecord>)
    requires Verified(recs)
    ensures Intact(Links(recs))
    ensures forall i: nat | i <= |recs| :: HashBefore(Links(recs), i) == StoredBefore(recs, i)
  {
    var links := Links(recs);
    forall i | 0 <= i < |recs|
      ensures Joined(links, i)
    {
      assert !Broken(recs, i);
    }
  }

  lemma VerifiedPrefix(recs: seq<AuditRecord>, n: nat)
    requires Verified(recs) && n <= |recs|
    ensures Verified(recs[..n])
  {
    forall i | 0 <= i < n
      ensures !Broken(recs[..n], i)
    {
      assert !Broken(recs, i);
    }
  }

  lemma SeqNosAtMatch(a: seq<AuditRecord>, b: seq<AuditRecord>, p: set<nat>, q: set<nat>)
    requires |a| == |b|
    requires forall i: nat | i < |a| :: a[i].seqNo == b[i].seqNo && (i in p <==> i in q)
    ensures SeqNosAt(a, p) == SeqNosAt(b, q)
  {
    if a != [] {
      var n := |a| - 1;
      SeqNosAtMatch(a[..n], b[..n], p, q);
    }
  }

  lemma {:induction false} SeqNosAtSingle(recs: seq<AuditRecord>, k: nat, p: set<nat>)
    requires forall i: nat | i < |recs| :: i in p <==> i == k
    ensures SeqNosAt(recs, p) == if k < |recs| then [recs[k].seqNo] else []
  {
    if recs != [] {
      SeqNosAtSingle(recs[..|recs| - 1], k, p);
    }
  }

  lemma {:induction false} SeqNosAtEmpty(recs: seq<AuditRecord>, p: set<nat>)
    ensures SeqNosAt(recs, p) == [] <==> forall i: nat | i < |recs| :: i !in p
  {
    if recs != [] {
      var n := |recs| - 1;
      SeqNosAtEmpty(recs[..n], p);
      assert (forall i: nat | i < |recs| :: i !in p) <==> (forall i: nat | i < n :: i !in p) && n !in p;
    }
  }

  // ---------------------------------------------------------------- theorems about chains

  /** Two verified chains with the same final digest hold the same hashed content throughout. */
  lemma ChainBinding(a: seq<AuditRecord>, b: seq<AuditRecord>)
    requires Verified(a) && Verified(b)
    requires StoredBefore(a, |a|) == StoredBefore(b, |b|)
    ensures |a| == |b|
    ensures forall i | 0 <= i < |a| ::
              && a[i].id == b[i].id && a[i].event == b[i].event && a[i].ts == b[i].ts
              && a[i].userId == b[i].userId && a[i].tenantId == b[i].tenantId
              && a[i].reason == b[i].reason && a[i].detail == b[i].detail
              && a[i].chainHash == b[i].chainHash && a[i].prevHash == b[i].prevHash
  {
    VerifiedIsIntact(a);
    VerifiedIsIntact(b);
    LastDigestBinds(Links(a), Links(b));
    forall i | 0 <= i < |a|
      ensures a[i].Hashed() == b[i].Hashed() && a[i].chainHash == b[i].chainHash && a[i].prevHash == b[i].prevHash
    {
      assert Links(a)[i] == Links(b)[i];
      assert !Broken(a, i) && !Broken(b, i);
      assert StoredBefore(a, i) == HashBefore(Links(a), i) == HashBefore(Links(b), i) == StoredBefore(b, i);
    }
  }

  /** `edited` keeps the stored digests and sequence numbers of `original`. */
  predicate SameStamps(original: seq<AuditRecord>, edited: seq<AuditRecord>) {
    && |original| == |edited|
    && forall i | 0 <= i < |original| ::
         && edited[i].seqNo == original[i].seqNo
         && edited[i].chainHash == original[i].chainHash
         && edited[i].prevHash == original[i].prevHash
  }

  function EditedPositions(original: seq<AuditRecord>, edited: seq<AuditRecord>): set<nat>
    requires |original| == |edited|
  {
    set i: nat | i < |original| && edited[i].Hashed() != original[i].Hashed()
  }

  /**
   Whatever set of records has its hashed fields rewritten, tamper detection reports
   exactly those records; a rewrite of actor, address or severity is never seen.
   */
  lemma TamperLocalised(original: seq<AuditRecord>, edited: seq<AuditRecord>)
    requires Verified(original) && SameStamps(original, edited)
    ensures BrokenPositions(edited) == EditedPositions(original, edited)
    ensures SeqNosAt(edited, BrokenPositions(edited)) == SeqNosAt(original, EditedPositions(original, edited))
  {
    forall i: nat | i < |edited|
      ensures Broken(edited, i) <==> i in EditedPositions(original, edited)
    {
      assert !Broken(original, i);
      assert StoredBefore(edited, i) == StoredBefore(original, i);
    }
    SeqNosAtMatch(edited, original, BrokenPositions(edited), EditedPositions(original, edited));
  }

  /** One rewritten record is reported alone. */
  lemma SingleTamperLocalised(original: seq<AuditRecord>, k: nat, forged: AuditRecord)
    requires Verified(original) && k < |original|
    requires forged.seqNo == original[k].seqNo && forged.chainHash == original[k].chainHash
    requires forged.prevHash == original[k].prevHash && forged.Hashed() != original[k].Hashed()
    ensures var edited := original[k := forged];
            SeqNosAt(edited, BrokenPositions(edited)) == [original[k].seqNo]
  {
    var edited := original[k := forged];
    TamperLocalised(original, edited);
    SeqNosAtSingle(original, k, EditedPositions(original, edited));
  }

  /** Cutting one record out of the middle is reported at the record that followed it. */
  lemma RemovalLocalised(original: seq<AuditRecord>, k: nat)
    requires Verified(original) && k + 1 < |original|
    ensures var cut := original[..k] + original[k + 1..];
            SeqNosAt(cut, BrokenPositions(cut)) == [original[k + 1].seqNo]
  {
    var cut := original[..k] + original[k + 1..];
    VerifiedIsIntact(original);
    NoCycle(Links(original), k, k + 1);
    forall i: nat | i < |cut|
      ensures Broken(cut, i) <==> i == k
    {
      assert !Broken(original, i) && !Broken(original, i + 1);
    }
    SeqNosAtSingle(cut, k, BrokenPositions(cut));
  }

  /** Cutting records off the end leaves nothing for verification or detection to see. */
  lemma TruncationUnseen(original: seq<AuditRecord>, n: nat)
    requires Verified(original) && n <= |original|
    ensures Verified(original[..n])
    ensures SeqNosAt(original[..n], BrokenPositions(original[..n])) == []
  {
    VerifiedPrefix(original, n);
    SeqNosAtEmpty(original[..n], BrokenPositions(original[..n]));
  }

  lemma DetectionAgreesWithVerification(recs: seq<AuditRecord>)
    ensures SeqNosAt(recs, BrokenPositions(recs)) == [] <==> Verified(recs)
  {
    SeqNosAtEmpty(recs, BrokenPositions(recs));
    forall i | 0 <= i < |recs|
      ensures Broken(recs, i) <==> i in BrokenPositions(recs)
    {
    }
  }

  /** A retained suffix verifies exactly when nothing was evicted or nothing is left. */
  lemma SuffixVerdict(history: seq<AuditRecord>, dropped: nat)
    requires Verified(history) && dropped <= |history|
    ensures Verified(history[dropped..]) <==> dropped == |history| || dropped == 0
  {
    var recs := history[dropped..];
    if 0 < dropped < |history| {
      assert !Broken(history, dropped) && !Broken(history, dropped - 1);
      assert Broken(recs, 0);
    } else if dropped == 0 {
      assert recs == history;
    }
  }

  // ---------------------------------------------------------------- retention

  /** The number of leading records older than the cutoff. */
  function LeadingStale(recs: seq<AuditRecord>, cutoff: int): (n: nat)
    ensures n <= |recs|
    ensures forall i | 0 <= i < n :: recs[i].ts < cutoff
    ensures n < |recs| ==> recs[n].ts >= cutoff
  {
    if recs == [] || recs[0].ts >= cutoff then 0 else 1 + LeadingStale(recs[1..], cutoff)
  }

  /** How many records eviction drops from the front. */
  function Dropped(recs: seq<AuditRecord>, cutoff: int): (n: nat)
    ensures LeadingStale(recs, cutoff) <= n <= |recs| && |recs| - n <= MAX_RECORDS
    ensures LeadingStale(recs, cutoff) < n ==> |recs| - n == MAX_RECORDS
  {
    var stale := LeadingStale(recs, cutoff);
    if |recs| - stale > MAX_RECORDS then |recs| - MAX_RECORDS else stale
  }

  /** Every record of an event that needs a reason has one. */
  predicate Reasoned(history: seq<AuditRecord>) {
    forall i | 0 <= i < |history| :: history[i].event in REQUIRES_REASON ==> !IsBlank(history[i].reason)
  }

  predicate Numbered(history: seq<AuditRecord>) {
    forall i | 0 <= i < |history| :: history[i].seqNo == i + 1
  }

  class AuditChain {
    var records: seq<AuditRecord>
    var seqNo: nat
    var prev: Digest<Canonical>
    /** Every record ever appended. */
    ghost var history: seq<AuditRecord>

    ghost predicate Valid()
      reads this
    {
      && Verified(history)
      && seqNo == |history|
      && Numbered(history) && Reasoned(history)
      && prev == StoredBefore(history, |history|)
      && |records| <= |history| && records == history[|history| - |records|..]
      && |records| <= MAX_RECORDS
    }

    constructor ()
      ensures Valid() && history == [] && records == []
    {
      records, seqNo, prev, history := [], 0, Genesis, [];
    }

    /**
     `ts` and `rid` are the clock reading and the identifier drawn by the call, `evictTime` the
     clock reading taken during eviction and `severity` the severity listed for the event.
     */
    method Record(event: string, userId: string, tenantId: string, actorId: string, ip: string,
                  reason: string, detail: string, severity: string,
                  ts: int, rid: string, evictTime: int)
      returns (result: RecordResult)
      requires Valid()
      modifies this
      ensures Valid()
      ensures result == MissingReason <==> event in REQUIRES_REASON && IsBlank(reason)
      ensures result == MissingReason ==> history == old(history) && records == old(records)
      ensures result.Recorded? ==>
                && history == old(history) + [result.rec]
                && result.rec.Hashed() == Canonical(rid, event, ts, userId, tenantId, reason, detail)
                && result.rec.actorId == actorId && result.rec.ip == ip && result.rec.severity == severity
                && var appended := old(records) + [result.rec];
                   records == appended[Dropped(appended, evictTime - MAX_AGE_SECONDS)..]
      ensures result.Recorded? ==>
                |records| <= 50_000
                && (records != [] ==> records[0].ts >= evictTime - 30 * 24 * 60 * 60 || |records| == 50_000)
                && var appended := old(records) + [result.rec];
                   (|records| < 50_000 ==>
                      forall i | 0 <= i < |appended| - |records| :: appended[i].ts < evictTime - 30 * 24 * 60 * 60)
    {
      hide REQUIRES_REASON, Verified, Numbered, Reasoned, IsBlank, StoredBefore, Dropped, LeadingStale;
      if event in REQUIRES_REASON && IsBlank(reason) {
        return MissingReason;
      }
      seqNo := seqNo + 1;
      var hash := Mac(prev, Canonical(rid, event, ts, userId, tenantId, reason, detail));
      var rec := AuditRecord(rid, seqNo, event, severity, ts, userId, tenantId, actorId, ip,
                             reason, detail, hash, prev);
      prev := hash;
      records := records + [rec];
      AppendVerified(history, rec);
      AppendNumbered(history, rec);
      AppendReasoned(history, rec);
      AppendSuffix(history, old(records), rec);
      history := history + [rec];
      Evict(evictTime);
      return Recorded(rec);
    }

    method Evict(now: int)
      requires |records| <= |history| && records == history[|history| - |records|..]
      modifies this`records
      ensures records == old(records)[Dropped(old(records), now - MAX_AGE_SECONDS)..]
      ensures records != [] ==> records[0].ts >= now - 30 * 24 * 60 * 60 || |records| == 50_000
      ensures |records| < 50_000 ==>
                forall i | 0 <= i < |old(records)| - |records| :: old(records)[i].ts < now - 30 * 24 * 60 * 60
      ensures |records| <= |history| && records == history[|history| - |records|..]
    {
      hide LeadingStale;
      var cutoff := now - MAX_AGE_SECONDS;
      ghost var start := records;
      ghost var k := 0;
      while records != [] && records[0].ts < cutoff
        invariant 0 <= k <= LeadingStale(start, cutoff) && records == start[k..]
        decreases |records|
      {
        LeadingStaleFrom(start, cutoff, k);
        records := records[1..];
        k := k + 1;
      }
      LeadingStaleFrom(start, cutoff, k);
      while |records| > MAX_RECORDS
        invariant LeadingStale(start, cutoff) <= k <= Dropped(start, cutoff) && records == start[k..]
        decreases |records|
      {
        records := records[1..];
        k := k + 1;
      }
    }

    /** Verification succeeds exactly when nothing is retained or nothing was ever evicted. */
    method VerifyChain() returns (ok: bool)
      ensures ok == Verified(records)
      ensures Valid() ==> (ok <==> records == [] || records == history)
    {
      ghost var n := |history| - |records|;
      if Valid() {
        SuffixVerdict(history, n);
      }
      var prevHash := Genesis;
      var i := 0;
      while i < |records|
        invariant 0 <= i <= |records| && prevHash == StoredBefore(records, i)
        invariant forall j | 0 <= j < i :: !Broken(records, j)
      {
        var r := records[i];
        if r.chainHash != Mac(prevHash, r.Hashed()) || r.prevHash != prevHash {
          assert Broken(records, i);
          return false;
        }
        prevHash := r.chainHash;
        i := i + 1;
      }
      return true;
    }

    method DetectTamper() returns (broken: seq<nat>)
      ensures broken == SeqNosAt(records, BrokenPositions(records))
      ensures broken == [] <==> Verified(records)
    {
      broken := [];
      var prevHash := Genesis;
      var i := 0;
      while i < |records|
        invariant 0 <= i <= |records| && prevHash == StoredBefore(records, i)
        invariant broken == SeqNosAt(records[..i], BrokenPositions(records))
      {
        var r := records[i];
        if r.chainHash != Mac(prevHash, r.Hashed()) || r.prevHash != prevHash {
          broken := broken + [r.seqNo];
        }
        prevHash := r.chainHash;
        i := i + 1;
        assert records[..i][..i - 1] == records[..i - 1];
      }
      assert records[..i] == records;
      DetectionAgreesWithVerification(records);
    }
  }

  lemma AppendNumbered(history: seq<AuditRecord>, rec: AuditRecord)
    requires Numbered(history) && rec.seqNo == |history| + 1
    ensures Numbered(history + [rec])
  {
  }

  lemma AppendReasoned(history: seq<AuditRecord>, rec: AuditRecord)
    requires Reasoned(history) && (rec.event in REQUIRES_REASON ==> !IsBlank(rec.reason))
    ensures Reasoned(history + [rec])
  {
    hide REQUIRES_REASON, IsBlank;
  }

  lemma AppendSuffix(history: seq<AuditRecord>, records: seq<AuditRecord>, rec: AuditRecord)
    requires |records| <= |history| && records == history[|history| - |records|..]
    ensures records + [rec] == (history + [rec])[|history| - |records|..]
    ensures StoredBefore(history + [rec], |history| + 1) == rec.chainHash
  {
  }

  lemma AppendVerified(history: seq<AuditRecord>, rec: AuditRecord)
    requires Verified(history)
    requires rec.prevHash == StoredBefore(history, |history|)
    requires rec.chainHash == Mac(rec.prevHash, rec.Hashed())
    ensures Verified(history + [rec])
  {
    forall i | 0 <= i <= |history|
      ensures !Broken(history + [rec], i)
    {
      assert i < |history| ==> !Broken(history, i);
    }
  }

  lemma LeadingStaleFrom(recs: seq<AuditRecord>, cutoff: int, k: nat)
    requires k <= LeadingStale(recs, cutoff)
    ensures k < |recs| && recs[k].ts < cutoff <==> k < LeadingStale(recs, cutoff)
  {
  }
}
