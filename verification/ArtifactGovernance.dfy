/** Artifact lifecycle, signatures, downloads and audit of backend/core/artifact_governance.py. */
module ArtifactGovernance {
  import opened HashChain
  import opened Options
  import opened Text

  const MAX_RECORDS := 50_000

  type Bytes = seq<bv8>

  datatype Status = Draft | Signed | Published | Deprecated | Revoked
  datatype Action = Created | Signed | Published | Deprecated | Revoked | Downloaded | Verified | Rejected
  datatype Kind = EaBinary | EaSource | Config | LicensePkg | Migration | DockerImg | Installer
  datatype Platform = Mt5 | Mt4 | WindowsX64 | Docker | Any

  predicate Blocked(s: Status) {
    s in {Status.Draft, Status.Revoked}
  }

  function ValidTransitions(s: Status): set<Status> {
    match s
    case Draft => {Status.Signed, Status.Revoked}
    case Signed => {Status.Published, Status.Revoked}
    case Published => {Status.Deprecated, Status.Revoked}
    case Deprecated => {Status.Revoked}
    case Revoked => {}
  }

  predicate RequiresReason(a: Action) {
    a in {Action.Revoked, Action.Deprecated, Action.Rejected}
  }

  lemma NotBlank(s: string)
    requires s != "" && s[0] == 'b'
    ensures !IsBlank(s)
  {
    assert !IsSpace(s[0]);
  }

  // ---------------------------------------------------------------- the audit chain

  datatype Canonical = Canonical(entryId: string, artifactId: string, action: Action, actor: string,
                                 tenantId: string, reason: string, detail: string, ts: int)

  datatype AuditEntry = AuditEntry(content: Canonical, seqNo: nat,
                                   chainHash: Digest<Canonical>, prevHash: Digest<Canonical>)

  function StoredBefore(recs: seq<AuditEntry>, i: nat): Digest<Canonical>
    requires i <= |recs|
  {
    if i == 0 then Genesis else recs[i - 1].chainHash
  }

  predicate Matches(recs: seq<AuditEntry>, i: nat)
    requires i < |recs|
  {
    recs[i].chainHash == Mac(StoredBefore(recs, i), recs[i].content)
  }

  predicate Verifies(recs: seq<AuditEntry>) {
    forall i | 0 <= i < |recs| :: Matches(recs, i)
  }

  function Links(recs: seq<AuditEntry>): (links: seq<Link<Canonical>>)
    ensures |links| == |recs|
  {
    seq(|recs|, i requires 0 <= i < |recs| => Link(recs[i].content, recs[i].chainHash))
  }

  /** Positions of a verified chain store different digests. */
  lemma StoredDigestsDiffer(recs: seq<AuditEntry>, i: nat, j: nat)
    requires Verifies(recs) && i < j <= |recs|
    ensures StoredBefore(recs, i) != StoredBefore(recs, j)
  {
    forall k | 0 <= k < |recs|
      ensures Joined(Links(recs), k)
    {
      assert Matches(recs, k);
    }
    NoCycle(Links(recs), i, j);
  }

  /** The digest that detection expects record `i` to follow: that of the last record that fitted. */
  function Anchor(recs: seq<AuditEntry>, i: nat): Digest<Canonical>
    requires i <= |recs|
    decreases i, 0
  {
    if i == 0 then Genesis
    else if Fits(recs, i - 1) then recs[i - 1].chainHash
    else Anchor(recs, i - 1)
  }

  predicate Fits(recs: seq<AuditEntry>, i: nat)
    requires i < |recs|
    decreases i, 1
  {
    recs[i].chainHash == Mac(Anchor(recs, i), recs[i].content)
  }

  function SeqNos(recs: seq<AuditEntry>): seq<nat> {
    seq(|recs|, i requires 0 <= i < |recs| => recs[i].seqNo)
  }

  /** The sequence numbers of those among the first `n` records that do not fit. */
  function Misfits(recs: seq<AuditEntry>, n: nat): seq<nat>
    requires n <= |recs|
  {
    if n == 0 then []
    else Misfits(recs, n - 1) + if Fits(recs, n - 1) then [] else [recs[n - 1].seqNo]
  }

  /** Detection and verification walk together as long as everything matches. */
  lemma {:induction false} MatchingPrefix(recs: seq<AuditEntry>, n: nat)
    requires n <= |recs| && forall i: nat | i < n :: Matches(recs, i)
    ensures Anchor(recs, n) == StoredBefore(recs, n) && Misfits(recs, n) == []
  {
    if n > 0 {
      MatchingPrefix(recs, n - 1);
      assert Matches(recs, n - 1);
    }
  }

  lemma {:induction false} SilentPrefix(recs: seq<AuditEntry>, n: nat)
    requires n <= |recs| && Misfits(recs, n) == []
    ensures forall i: nat | i < n :: Matches(recs, i)
  {
    if n > 0 {
      assert Fits(recs, n - 1);
      SilentPrefix(recs, n - 1);
      MatchingPrefix(recs, n - 1);
    }
  }

  /** Detection is silent exactly on chains that verification accepts. */
  lemma DetectionAgreesWithVerification(recs: seq<AuditEntry>)
    ensures Misfits(recs, |recs|) == [] <==> Verifies(recs)
  {
    if Misfits(recs, |recs|) == [] {
      SilentPrefix(recs, |recs|);
    }
    if Verifies(recs) {
      MatchingPrefix(recs, |recs|);
    }
  }

  /** `edited` keeps every stored digest and number, and `k` is the first record whose content changed. */
  predicate FirstEditedAt(original: seq<AuditEntry>, edited: seq<AuditEntry>, k: nat) {
    && |original| == |edited| && k < |original|
    && (forall i | 0 <= i < |original| ::
          edited[i].seqNo == original[i].seqNo && edited[i].chainHash == original[i].chainHash)
    && (forall i | 0 <= i < k :: edited[i].content == original[i].content)
    && edited[k].content != original[k].content
  }

  /** From the first edited record on, detection stays at the digest before it and nothing fits. */
  lemma {:induction false} StuckAfterEdit(original: seq<AuditEntry>, edited: seq<AuditEntry>, k: nat, n: nat)
    requires Verifies(original) && FirstEditedAt(original, edited, k) && k <= n <= |original|
    ensures Anchor(edited, n) == StoredBefore(original, k)
    ensures Misfits(edited, n) == SeqNos(original[k..n])
  {
    if n == k {
      forall i: nat | i < k
        ensures Matches(edited, i)
      {
        assert Matches(original, i);
      }
      MatchingPrefix(edited, k);
    } else {
      StuckAfterEdit(original, edited, k, n - 1);
      assert Matches(original, n - 1);
      if n - 1 > k {
        StoredDigestsDiffer(original, k, n - 1);
      }
      assert !Fits(edited, n - 1);
      assert original[k..n] == original[k..n - 1] + [original[n - 1]];
    }
  }

  /** Rewriting any set of records is reported as everything from the first rewritten one to the end. */
  lemma TamperReportedToTheEnd(original: seq<AuditEntry>, edited: seq<AuditEntry>, k: nat)
    requires Verifies(original) && FirstEditedAt(original, edited, k)
    ensures Misfits(edited, |edited|) == SeqNos(original[k..])
    ensures !Verifies(edited)
  {
    StuckAfterEdit(original, edited, k, |original|);
    assert original[k..|original|] == original[k..];
    assert SeqNos(original[k..])[0] == original[k].seqNo;
    DetectionAgreesWithVerification(edited);
  }

  predicate Stamped(history: seq<AuditEntry>, i: nat)
    requires i < |history|
  {
    history[i].seqNo == i + 1 && history[i].prevHash == StoredBefore(history, i)
  }

  /** A revocation, a deprecation and a refusal say why. */
  predicate Reasoned(c: Canonical) {
    c.action in {Action.Revoked, Action.Deprecated, Action.Rejected} ==> !IsBlank(c.reason)
  }

  class ArtifactAuditChain {
    var records: seq<AuditEntry>
    var seqNo: nat
    var prevHash: Digest<Canonical>
    ghost var history: seq<AuditEntry>

    ghost predicate Valid()
      reads this
    {
      && Verifies(history)
      && seqNo == |history|
      && prevHash == StoredBefore(history, |history|)
      && (forall i | 0 <= i < |history| :: Stamped(history, i))
      && (forall i | 0 <= i < |history| :: Reasoned(history[i].content))
      && records == if |history| <= MAX_RECORDS then history else history[|history| - MAX_RECORDS..]
    }

    constructor ()
      ensures Valid() && history == []
    {
      records, seqNo, prevHash, history := [], 0, Genesis, [];
    }

    method Record(artifactId: string, action: Action, actor: string, reason: string, tenantId: string,
                  detail: string, entryId: string, ts: int)
      returns (recorded: bool)
      requires Valid()
      modifies this
      ensures Valid()
      ensures recorded <==> !(action in {Action.Revoked, Action.Deprecated, Action.Rejected} && IsBlank(reason))
      ensures !recorded ==> history == old(history)
      ensures recorded ==>
                && |history| == |old(history)| + 1 && history[..|old(history)|] == old(history)
                && history[|old(history)|].content
                   == Canonical(entryId, artifactId, action, actor, tenantId, reason, detail, ts)
    {
      hide Verifies, IsBlank;
      if RequiresReason(action) && IsBlank(reason) {
        return false;
      }
      seqNo := seqNo + 1;
      var content := Canonical(entryId, artifactId, action, actor, tenantId, reason, detail, ts);
      var entry := AuditEntry(content, seqNo, Mac(prevHash, content), prevHash);
      prevHash := entry.chainHash;
      // a full deque drops its oldest entry
      records := records + [entry];
      if |records| > MAX_RECORDS {
        records := records[1..];
      }
      AppendVerifies(history, entry);
      assert forall i | 0 <= i < |history| :: Stamped(history, i) ==> Stamped(history + [entry], i);
      history := history + [entry];
      return true;
    }

    method VerifyChain() returns (ok: bool)
      ensures ok == Verifies(records)
      ensures Valid() ==> (ok <==> |history| <= 50_000)
    {
      if Valid() && |history| > MAX_RECORDS {
        var first := |history| - MAX_RECORDS;
        StoredDigestsDiffer(history, 0, first);
        assert Matches(history, first) && !Matches(records, 0);
      }
      var prev := Genesis;
      var i := 0;
      while i < |records|
        invariant 0 <= i <= |records| && prev == StoredBefore(records, i)
        invariant forall j | 0 <= j < i :: Matches(records, j)
      {
        if records[i].chainHash != Mac(prev, records[i].content) {
          assert !Matches(records, i);
          return false;
        }
        prev := records[i].chainHash;
        i := i + 1;
      }
      return true;
    }

    method DetectTampered() returns (broken: seq<nat>)
      ensures broken == Misfits(records, |records|)
      ensures broken == [] <==> Verifies(records)
    {
      broken := [];
      var prev := Genesis;
      var i := 0;
      while i < |records|
        invariant 0 <= i <= |records| && prev == Anchor(records, i)
        invariant broken == Misfits(records, i)
      {
        if records[i].chainHash != Mac(prev, records[i].content) {
          broken := broken + [records[i].seqNo];
        } else {
          prev := records[i].chainHash;
        }
        i := i + 1;
      }
      DetectionAgreesWithVerification(records);
    }
  }

  lemma AppendVerifies(history: seq<AuditEntry>, entry: AuditEntry)
    requires Verifies(history)
    requires entry.chainHash == Mac(StoredBefore(history, |history|), entry.content)
    ensures Verifies(history + [entry])
  {
    forall i | 0 <= i <= |history|
      ensures Matches(history + [entry], i)
    {
      assert i < |history| ==> Matches(history, i);
    }
  }

  // ---------------------------------------------------------------- replaying the audit history

  /** What the history alone says about one artifact. */
  datatype Replayed = Absent | At(status: Status, downloads: nat) | Illegal

  function Advance(r: Replayed, a: Action): Replayed {
    match r
    case Illegal => Illegal
    case Absent => if a == Action.Created then At(Status.Draft, 0) else Illegal
    case At(s, n) =>
      match a
      case Signed => MoveTo(r, Status.Signed)
      case Published => MoveTo(r, Status.Published)
      case Deprecated => MoveTo(r, Status.Deprecated)
      case Revoked => MoveTo(r, Status.Revoked)
      case Downloaded => if Blocked(s) then Illegal else At(s, n + 1)
      case Rejected => if Blocked(s) then r else Illegal
      case _ => Illegal
  }

  function MoveTo(r: Replayed, target: Status): Replayed
    requires r.At?
  {
    if target in ValidTransitions(r.status) then At(target, r.downloads) else Illegal
  }

  function Replay(history: seq<AuditEntry>, id: string): Replayed {
    if history == [] then Absent
    else
      var last := history[|history| - 1].content;
      var before := Replay(history[..|history| - 1], id);
      if last.artifactId == id then Advance(before, last.action) else before
  }

  function Downloads(history: seq<AuditEntry>, id: string): nat {
    if history == [] then 0
    else
      var last := history[|history| - 1].content;
      Downloads(history[..|history| - 1], id)
      + if last.artifactId == id && last.action == Action.Downloaded then 1 else 0
  }

  /** A legal replay counts exactly the DOWNLOADED entries. */
  lemma {:induction false} ReplayCountsDownloads(history: seq<AuditEntry>, id: string)
    requires Replay(history, id).At?
    ensures Replay(history, id).downloads == Downloads(history, id)
  {
    if history != [] {
      var prefix := history[..|history| - 1];
      if Replay(prefix, id).At? {
        ReplayCountsDownloads(prefix, id);
      } else {
        NothingBeforeCreation(prefix, id);
      }
    }
  }

  lemma ReplayAppend(before: seq<AuditEntry>, now: seq<AuditEntry>, id: string)
    requires |now| == |before| + 1 && now[..|before|] == before
    ensures var last := now[|before|].content;
            Replay(now, id)
            == if last.artifactId == id then Advance(Replay(before, id), last.action) else Replay(before, id)
  {
  }

  lemma {:induction false} NothingBeforeCreation(history: seq<AuditEntry>, id: string)
    requires Replay(history, id) == Absent
    ensures forall i | 0 <= i < |history| :: history[i].content.artifactId != id
    ensures Downloads(history, id) == 0
  {
    if history != [] {
      NothingBeforeCreation(history[..|history| - 1], id);
    }
  }

  lemma {:induction false} LegalPrefix(history: seq<AuditEntry>, n: nat, id: string)
    requires n <= |history| && Replay(history, id) != Illegal
    ensures Replay(history[..n], id) != Illegal
    decreases |history| - n
  {
    if n < |history| {
      LegalPrefix(history, n + 1, id);
      assert history[..n + 1][..n] == history[..n];
    } else {
      assert history[..n] == history;
    }
  }

  /** Entry by entry, a legal history walks a VALID_TRANSITIONS path that starts in DRAFT. */
  lemma StatusPath(history: seq<AuditEntry>, n: nat, id: string)
    requires n < |history| && Replay(history, id) != Illegal
    ensures match (Replay(history[..n], id), Replay(history[..n + 1], id))
            case (At(s, _), At(next, _)) => next == s || next in ValidTransitions(s)
            case (Absent, At(next, k)) => next == Status.Draft && k == 0
            case (Absent, Absent) => history[n].content.artifactId != id
            case _ => false
  {
    LegalPrefix(history, n, id);
    LegalPrefix(history, n + 1, id);
    assert history[..n + 1][..n] == history[..n];
  }

  /** Before its first SIGNED entry an artifact of a legal history is unknown, a draft or revoked. */
  lemma {:induction false} UnsignedStatus(history: seq<AuditEntry>, id: string)
    requires Replay(history, id) != Illegal
    requires forall i | 0 <= i < |history| ::
               history[i].content.artifactId == id ==> history[i].content.action != Action.Signed
    ensures Replay(history, id) == Absent || Replay(history, id).status in {Status.Draft, Status.Revoked}
  {
    if history != [] {
      LegalPrefix(history, |history| - 1, id);
      UnsignedStatus(history[..|history| - 1], id);
    }
  }

  /** In a legal history every download comes after a signature of the same artifact. */
  lemma DownloadedAfterSigned(history: seq<AuditEntry>, id: string, j: nat)
    requires Replay(history, id) != Illegal && j < |history|
    requires history[j].content.artifactId == id && history[j].content.action == Action.Downloaded
    ensures exists i :: 0 <= i < j && history[i].content.artifactId == id && history[i].content.action == Action.Signed
  {
    LegalPrefix(history, j, id);
    LegalPrefix(history, j + 1, id);
    assert history[..j + 1][..j] == history[..j];
    if forall i | 0 <= i < j :: history[i].content.artifactId == id ==> history[i].content.action != Action.Signed {
      UnsignedStatus(history[..j], id);
      assert false;
    }
  }

  /** After a REVOKED entry a legal history holds only refusals for that artifact. */
  lemma {:induction false} RevokedIsFinal(history: seq<AuditEntry>, id: string, i: nat, j: nat)
    requires Replay(history, id) != Illegal && i < j < |history|
    requires history[i].content.artifactId == id && history[i].content.action == Action.Revoked
    requires history[j].content.artifactId == id
    ensures history[j].content.action == Action.Rejected
  {
    RevokedStays(history, id, i, j);
    LegalPrefix(history, j + 1, id);
    assert history[..j + 1][..j] == history[..j];
  }

  lemma {:induction false} RevokedStays(history: seq<AuditEntry>, id: string, i: nat, n: nat)
    requires Replay(history, id) != Illegal && i < n <= |history|
    requires history[i].content.artifactId == id && history[i].content.action == Action.Revoked
    ensures Replay(history[..n], id).At? && Replay(history[..n], id).status == Status.Revoked
  {
    LegalPrefix(history, n, id);
    assert history[..n][..n - 1] == history[..n - 1];
    if i < n - 1 {
      RevokedStays(history, id, i, n - 1);
    }
  }

  // ---------------------------------------------------------------- artifacts

  /** What a signature covers. */
  datatype Identity = Identity(artifactId: string, name: string, version: string, kind: Kind,
                               platform: Platform, sha256: Checksum, sizeBytes: nat, createdAt: int,
                               createdBy: string, tenantId: string)

  datatype Checksum = Sha256(data: Bytes)
  datatype Signature = Unsigned | SignatureOf(identity: Identity)

  datatype Outcome = Done | NotFound | TransitionDenied | MissingReason | AccessDenied | ChecksumMismatch

  datatype Artifact = Artifact(identity: Identity, status: Status, signature: Signature, downloads: nat,
                               revokeReason: string)
  {
    predicate IsDownloadable() {
      !Blocked(status)
    }

    predicate VerifySignature() {
      signature != Unsigned && signature == SignatureOf(identity)
    }
  }

  /** How far an artifact has come. */
  function Stage(s: Status): nat {
    match s
    case Draft => 0
    case Signed => 1
    case Published => 2
    case Deprecated => 3
    case Revoked => 4
  }

  /** A transition goes exactly one stage forward or revokes; beyond that only a missing reason can stop it. */
  lemma TransitionIff(a: Artifact, target: Status, action: Action, reason: string)
    ensures Transition(a, target, action, reason).0 == TransitionDenied
            <==> !(if target == Status.Revoked then a.status != Status.Revoked
                   else Stage(target) == Stage(a.status) + 1)
    ensures Transition(a, target, action, reason).0 == MissingReason ==>
              action in {Action.Revoked, Action.Deprecated, Action.Rejected} && Strip(reason) == ""
  {
    BlankIffStripsEmpty(reason);
  }

  /** A signature is accepted for exactly the identity it was made for; none is accepted for nothing. */
  lemma SignatureBinds(a: Artifact, signed: Identity)
    ensures a.(signature := SignatureOf(signed)).VerifySignature() <==> a.identity == signed
    ensures !a.(signature := Unsigned).VerifySignature()
  {
  }

  /** ArtifactStore.transition on the record found. */
  function Transition(a: Artifact, target: Status, action: Action, reason: string): (Outcome, Artifact) {
    if target !in ValidTransitions(a.status) then (TransitionDenied, a)
    else if RequiresReason(action) && IsBlank(reason) then (MissingReason, a)
    else (Done, a.(status := target, revokeReason := if target == Status.Revoked then reason else a.revokeReason))
  }

  /** Whatever left the draft state alive carries a valid signature. */
  ghost predicate SignedIfLive(a: Artifact) {
    a.status in {Status.Signed, Status.Published, Status.Deprecated} ==> a.VerifySignature()
  }

  /**
   The history explains the artifacts: replaying it gives the status and the download count of
   each, and every live one that was signed still verifies.
   */
  ghost predicate Explains(history: seq<AuditEntry>, artifacts: map<string, Artifact>) {
    && (forall id | id in artifacts ::
          && artifacts[id].identity.artifactId == id
          && Replay(history, id) == At(artifacts[id].status, artifacts[id].downloads)
          && SignedIfLive(artifacts[id]))
    && (forall id | id !in artifacts :: Replay(history, id) == Absent)
  }

  /** The artifacts with the listed ones revoked. */
  ghost function Revoke(artifacts: map<string, Artifact>, ids: seq<string>, reason: string): map<string, Artifact> {
    map id | id in artifacts ::
      if id in ids && artifacts[id].status != Status.Revoked
      then artifacts[id].(status := Status.Revoked, revokeReason := reason) else artifacts[id]
  }

  /** The history grew by one entry with this content. */
  ghost predicate Logged(before: seq<AuditEntry>, now: seq<AuditEntry>, content: Canonical) {
    && |now| == |before| + 1 && now[..|before|] == before && now[|before|].content == content
  }

  /** An entry that accounts for the change of one artifact keeps the history an explanation. */
  lemma StillExplains(before: seq<AuditEntry>, now: seq<AuditEntry>, artifacts: map<string, Artifact>,
                      content: Canonical, changed: Artifact)
    requires Explains(before, artifacts) && Logged(before, now, content)
    requires Advance(Replay(before, content.artifactId), content.action) == At(changed.status, changed.downloads)
    requires changed.identity.artifactId == content.artifactId && SignedIfLive(changed)
    ensures Explains(now, artifacts[content.artifactId := changed])
  {
    forall other
      ensures Replay(now, other)
              == if other == content.artifactId then At(changed.status, changed.downloads) else Replay(before, other)
    {
      ReplayAppend(before, now, other);
    }
  }

  /** What a bulk revocation reports: success for an artifact it revoked and met only once. */
  ghost predicate Reported(start: map<string, Artifact>, ids: seq<string>, results: map<string, bool>) {
    && results.Keys == (set id | id in ids)
    && forall id | id in ids ::
         results[id] <==> id in start && start[id].status != Status.Revoked && multiset(ids)[id] == 1
  }

  lemma ReportOneMore(start: map<string, Artifact>, ids: seq<string>, id: string, results: map<string, bool>,
                      reason: string)
    requires Reported(start, ids, results)
    ensures var now := Revoke(start, ids, reason);
            Reported(start, ids + [id], results[id := id in now && now[id].status != Status.Revoked])
  {
    assert id in ids <==> multiset(ids)[id] > 0;
  }

  /** The artifacts that a bulk revocation revokes, in the order in which it comes to them. */
  ghost function RevokedOnes(start: map<string, Artifact>, ids: seq<string>): seq<Artifact> {
    if ids == [] then []
    else
      var n := |ids| - 1;
      RevokedOnes(start, ids[..n])
      + if ids[n] in start && start[ids[n]].status != Status.Revoked && ids[n] !in ids[..n] then [start[ids[n]]] else []
  }

  /** What it writes about them. */
  ghost function RevokedEntries(ones: seq<Artifact>, actor: string, reason: string, entryId: string, ts: int)
    : seq<Canonical>
  {
    seq(|ones|, i requires 0 <= i < |ones| => RevokedEntry(ones[i], actor, reason, entryId, ts))
  }

  /** The REVOKED entry that a bulk revocation writes about one artifact. */
  function RevokedEntry(a: Artifact, actor: string, reason: string, entryId: string, ts: int): Canonical {
    Canonical(entryId, a.identity.artifactId, Action.Revoked, actor, a.identity.tenantId, reason, "{}", ts)
  }

  /** The history gained one entry for each of the contents, in order. */
  ghost predicate AllLogged(before: seq<AuditEntry>, now: seq<AuditEntry>, contents: seq<Canonical>) {
    && |now| == |before| + |contents| && now[..|before|] == before
    && forall j | 0 <= j < |contents| :: now[|before| + j].content == contents[j]
  }

  lemma LoggedOneMore(before: seq<AuditEntry>, mid: seq<AuditEntry>, now: seq<AuditEntry>,
                      contents: seq<Canonical>, content: Canonical)
    requires AllLogged(before, mid, contents) && Logged(mid, now, content)
    ensures AllLogged(before, now, contents + [content])
  {
    assert now[..|before|] == now[..|mid|][..|before|];
    assert forall j | 0 <= j < |mid| :: now[j] == now[..|mid|][j];
  }

  lemma OwnIds(history: seq<AuditEntry>, artifacts: map<string, Artifact>)
    requires Explains(history, artifacts)
    ensures forall id | id in artifacts :: artifacts[id].identity.artifactId == id
  {
  }

  lemma NothingLogged(history: seq<AuditEntry>)
    ensures AllLogged(history, history, [])
  {
  }

  lemma RevokedOnesOneMore(start: map<string, Artifact>, ids: seq<string>, id: string, reason: string)
    ensures var now := Revoke(start, ids, reason);
            RevokedOnes(start, ids + [id])
            == if id in now && now[id].status != Status.Revoked then RevokedOnes(start, ids) + [start[id]]
               else RevokedOnes(start, ids)
    ensures var now := Revoke(start, ids, reason);
            id in now ==> id in start && now[id].identity == start[id].identity
  {
    assert (ids + [id])[..|ids|] == ids;
    assert RevokedOnes(start, ids) + [] == RevokedOnes(start, ids);
  }

  lemma EntriesOneMore(ones: seq<Artifact>, a: Artifact, actor: string, reason: string, entryId: string, ts: int)
    ensures RevokedEntries(ones + [a], actor, reason, entryId, ts)
            == RevokedEntries(ones, actor, reason, entryId, ts) + [RevokedEntry(a, actor, reason, entryId, ts)]
  {
  }

  lemma NoEntries(actor: string, reason: string, entryId: string, ts: int)
    ensures RevokedEntries([], actor, reason, entryId, ts) == []
  {
  }

  lemma NothingRevoked(start: map<string, Artifact>, reason: string)
    ensures Revoke(start, [], reason) == start && Reported(start, [], map[]) && RevokedOnes(start, []) == []
  {
  }

  lemma RevokeOneMore(start: map<string, Artifact>, ids: seq<string>, id: string, reason: string)
    ensures var now := Revoke(start, ids, reason);
            Revoke(start, ids + [id], reason)
            == if id in now && now[id].status != Status.Revoked
               then now[id := now[id].(status := Status.Revoked, revokeReason := reason)] else now
  {
  }

  class Governance {
    var store: map<string, Artifact>
    const chain: ArtifactAuditChain

    ghost predicate Valid()
      reads this, chain
    {
      chain.Valid() && Explains(chain.history, store)
    }

    constructor ()
      ensures Valid() && store == map[] && chain.history == [] && fresh(chain)
    {
      store := map[];
      chain := new ArtifactAuditChain();
    }

    /** `id` is the uuid drawn for the new record. */
    method CreateArtifact(id: string, data: Bytes, name: string, version: string, kind: Kind,
                          platform: Platform, createdBy: string, tenantId: string, now: int, entryId: string)
      requires Valid() && id !in store
      modifies this, chain
      ensures Valid()
      ensures var identity := Identity(id, name, version, kind, platform, Sha256(data), |data|, now, createdBy,
                                       tenantId);
              store == old(store)[id := Artifact(identity, Status.Draft, Unsigned, 0, "")]
      ensures Logged(old(chain.history), chain.history,
                     Canonical(entryId, id, Action.Created, createdBy, tenantId, "", "{}", now))
    {
      hide IsBlank, Replay, ArtifactAuditChain.Valid;
      var identity := Identity(id, name, version, kind, platform, Sha256(data), |data|, now, createdBy, tenantId);
      var r := Artifact(identity, Status.Draft, Unsigned, 0, "");
      store := store[id := r];
      var recorded := chain.Record(id, Action.Created, createdBy, "", tenantId, "{}", entryId, now);
      ghost var entry := chain.history[|old(chain.history)|];
      StillExplains(old(chain.history), chain.history, old(store), entry.content, r);
    }

    method SignArtifact(id: string, actor: string, entryId: string, ts: int) returns (out: Outcome)
      requires Valid()
      modifies this, chain
      ensures Valid()
      ensures out == if id !in old(store) then NotFound
                     else if old(store)[id].status != Status.Draft then TransitionDenied else Done
      ensures out != Done ==> store == old(store) && chain.history == old(chain.history)
      ensures out == Done ==>
                && Logged(old(chain.history), chain.history,
                          Canonical(entryId, id, Action.Signed, actor, old(store)[id].identity.tenantId,
                                    "", "{}", ts))
                && store == old(store)[id := old(store)[id].(status := Status.Signed,
                                                             signature := SignatureOf(old(store)[id].identity))]
    {
      hide IsBlank, Replay, ArtifactAuditChain.Valid;
      if id !in store {
        return NotFound;
      }
      var r := store[id];
      if r.status != Status.Draft {
        return TransitionDenied;
      }
      r := r.(signature := SignatureOf(r.identity));
      var (done, signed) := Transition(r, Status.Signed, Action.Signed, "");
      store := store[id := signed];
      var recorded := chain.Record(id, Action.Signed, actor, "", r.identity.tenantId, "{}", entryId, ts);
      ghost var entry := chain.history[|old(chain.history)|];
      StillExplains(old(chain.history), chain.history, old(store), entry.content, signed);
      return done;
    }

    /** Publishing succeeds exactly on SIGNED artifacts; an unsigned one fails its signature first. */
    method PublishArtifact(id: string, actor: string, entryId: string, ts: int) returns (out: Outcome)
      requires Valid()
      modifies this, chain
      ensures Valid()
      ensures out == if id !in old(store) then NotFound
                     else if old(store)[id].status != Status.Signed then TransitionDenied else Done
      ensures out != Done ==> store == old(store) && chain.history == old(chain.history)
      ensures out == Done ==>
                && Logged(old(chain.history), chain.history,
                          Canonical(entryId, id, Action.Published, actor, old(store)[id].identity.tenantId,
                                    "", "{}", ts))
                && store == old(store)[id := old(store)[id].(status := Status.Published)]
    {
      hide IsBlank, Replay, ArtifactAuditChain.Valid;
      if id !in store {
        return NotFound;
      }
      var r := store[id];
      assert SignedIfLive(r);
      if !r.VerifySignature() {
        return TransitionDenied;
      }
      var (done, published) := Transition(r, Status.Published, Action.Published, "");
      if done != Done {
        return done;
      }
      store := store[id := published];
      var recorded := chain.Record(id, Action.Published, actor, "", r.identity.tenantId, "{}", entryId, ts);
      ghost var entry := chain.history[|old(chain.history)|];
      StillExplains(old(chain.history), chain.history, old(store), entry.content, published);
      return Done;
    }

    method DeprecateArtifact(id: string, reason: string, actor: string, entryId: string, ts: int) returns (out: Outcome)
      requires Valid()
      modifies this, chain
      ensures Valid()
      ensures out == if IsBlank(reason) then MissingReason else if id !in old(store) then NotFound
                     else if old(store)[id].status != Status.Published then TransitionDenied else Done
      ensures out != Done ==> store == old(store) && chain.history == old(chain.history)
      ensures out == Done ==>
                && Logged(old(chain.history), chain.history,
                          Canonical(entryId, id, Action.Deprecated, actor, old(store)[id].identity.tenantId,
                                    reason, "{}", ts))
                && store == old(store)[id := old(store)[id].(status := Status.Deprecated)]
    {
      hide IsBlank, Replay, ArtifactAuditChain.Valid;
      if IsBlank(reason) {
        return MissingReason;
      }
      if id !in store {
        return NotFound;
      }
      var r := store[id];
      assert SignedIfLive(r);
      var (done, deprecated) := Transition(r, Status.Deprecated, Action.Deprecated, reason);
      if done != Done {
        return done;
      }
      store := store[id := deprecated];
      var recorded := chain.Record(id, Action.Deprecated, actor, reason, r.identity.tenantId, "{}", entryId, ts);
      ghost var entry := chain.history[|old(chain.history)|];
      StillExplains(old(chain.history), chain.history, old(store), entry.content, deprecated);
      return Done;
    }

    /** Revocation succeeds from every status but REVOKED itself. */
    method RevokeArtifact(id: string, reason: string, actor: string, entryId: string, ts: int) returns (out: Outcome)
      requires Valid()
      modifies this, chain
      ensures Valid()
      ensures out == if IsBlank(reason) then MissingReason else if id !in old(store) then NotFound
                     else if old(store)[id].status == Status.Revoked then TransitionDenied else Done
      ensures out != Done ==> store == old(store) && chain.history == old(chain.history)
      ensures out == Done ==>
                && Logged(old(chain.history), chain.history,
                          Canonical(entryId, id, Action.Revoked, actor, old(store)[id].identity.tenantId,
                                    reason, "{}", ts))
                && store == old(store)[id := old(store)[id].(status := Status.Revoked, revokeReason := reason)]
    {
      hide IsBlank, Replay, ArtifactAuditChain.Valid;
      if IsBlank(reason) {
        return MissingReason;
      }
      if id !in store {
        return NotFound;
      }
      var r := store[id];
      var (done, revoked) := Transition(r, Status.Revoked, Action.Revoked, reason);
      if done != Done {
        return done;
      }
      store := store[id := revoked];
      var recorded := chain.Record(id, Action.Revoked, actor, reason, r.identity.tenantId, "{}", entryId, ts);
      ghost var entry := chain.history[|old(chain.history)|];
      StillExplains(old(chain.history), chain.history, old(store), entry.content, revoked);
      return Done;
    }

    /** `data`, when given, is the content the caller wants checked against the stored checksum. */
    method DownloadArtifact(id: string, data: Option<Bytes>, actor: string, entryId: string, ts: int)
      returns (out: Outcome)
      requires Valid()
      modifies this, chain
      ensures Valid()
      ensures out == if id !in old(store) then NotFound
                     else if old(store)[id].status in {Status.Draft, Status.Revoked} then AccessDenied
                     else if data.Some? && Sha256(data.value) != old(store)[id].identity.sha256 then ChecksumMismatch
                     else Done
      ensures out == Done ==> old(store)[id].VerifySignature()
      ensures out != Done ==> store == old(store)
      ensures out in {NotFound, ChecksumMismatch} ==> chain.history == old(chain.history)
      ensures out == AccessDenied ==>
                Logged(old(chain.history), chain.history,
                       Canonical(entryId, id, Action.Rejected, actor, old(store)[id].identity.tenantId,
                                 "blocked status: "
                                 + if old(store)[id].status == Status.Draft then "draft" else "revoked",
                                 "{}", ts))
      ensures out == Done ==>
                && Logged(old(chain.history), chain.history,
                          Canonical(entryId, id, Action.Downloaded, actor, old(store)[id].identity.tenantId,
                                    "", "{}", ts))
                && store == old(store)[id := old(store)[id].(downloads := old(store)[id].downloads + 1)]
    {
      hide IsBlank, Replay, ArtifactAuditChain.Valid;
      if id !in store {
        return NotFound;
      }
      var r := store[id];
      assert SignedIfLive(r);
      if !r.IsDownloadable() {
        var reason := "blocked status: " + if r.status == Status.Draft then "draft" else "revoked";
        NotBlank(reason);
        var rejected := chain.Record(id, Action.Rejected, actor, reason, r.identity.tenantId, "{}", entryId, ts);
        ghost var entry := chain.history[|old(chain.history)|];
        StillExplains(old(chain.history), chain.history, store, entry.content, r);
        assert store == store[id := r];
        return AccessDenied;
      }
      assert r.status.Signed? || r.status.Published? || r.status.Deprecated?;
      if data.Some? && Sha256(data.value) != r.identity.sha256 {
        return ChecksumMismatch;
      }
      var counted := r.(downloads := r.downloads + 1);
      store := store[id := counted];
      var recorded := chain.Record(id, Action.Downloaded, actor, "", r.identity.tenantId, "{}", entryId, ts);
      ghost var entry := chain.history[|old(chain.history)|];
      StillExplains(old(chain.history), chain.history, old(store), entry.content, counted);
      return Done;
    }

    /** AdminArtifactOps.bulk_revoke: an identifier listed twice is revoked but reported as a failure. */
    method BulkRevoke(ids: seq<string>, reason: string, actor: string, entryId: string, ts: int)
      returns (out: Outcome, results: map<string, bool>)
      requires Valid()
      modifies this, chain
      ensures Valid()
      ensures out == if IsBlank(reason) then MissingReason else Done
      ensures out == MissingReason ==> store == old(store) && chain.history == old(chain.history)
      ensures out == Done ==> store == Revoke(old(store), ids, reason)
      ensures out == Done ==> Reported(old(store), ids, results)
      ensures out == Done ==> AllLogged(old(chain.history), chain.history,
                                        RevokedEntries(RevokedOnes(old(store), ids), actor, reason, entryId, ts))
    {
      hide IsBlank, Replay, ArtifactAuditChain.Valid, Explains, Transition;
      hide Revoke, Reported, RevokedOnes, RevokedEntries, AllLogged, Logged;
      results := map[];
      if IsBlank(reason) {
        return MissingReason, results;
      }
      ghost var start, before := store, chain.history;
      OwnIds(before, start);
      NothingRevoked(start, reason);
      NothingLogged(before);
      assert RevokedEntries([], actor, reason, entryId, ts) == [] by { NoEntries(actor, reason, entryId, ts); }
      for k := 0 to |ids|
        invariant Valid()
        invariant store == Revoke(start, ids[..k], reason)
        invariant Reported(start, ids[..k], results)
        invariant AllLogged(before, chain.history,
                            RevokedEntries(RevokedOnes(start, ids[..k]), actor, reason, entryId, ts))
      {
        var id := ids[k];
        assert ids[..k + 1] == ids[..k] + [id];
        RevokeOneMore(start, ids[..k], id, reason);
        ReportOneMore(start, ids[..k], id, results, reason);
        RevokedOnesOneMore(start, ids[..k], id, reason);
        if id !in store || store[id].status == Status.Revoked {
          results := results[id := false];
        } else {
          ghost var mid := chain.history;
          var one := RevokeArtifact(id, reason, actor, entryId, ts);
          EntriesOneMore(RevokedOnes(start, ids[..k]), start[id], actor, reason, entryId, ts);
          LoggedOneMore(before, mid, chain.history,
                        RevokedEntries(RevokedOnes(start, ids[..k]), actor, reason, entryId, ts),
                        RevokedEntry(start[id], actor, reason, entryId, ts));
          results := results[id := one == Done];
        }
      }
      assert ids[..|ids|] == ids;
      return Done, results;
    }
  }
}
