/** The five-layer recovery status (backend/backup/backup_api.go:251-466) and what a pass does to it. */
module RecoveryStatus {
  import opened Common
  import opened Text
  import opened FileSystem
  import opened RecoveryPoint
  import opened RecoveryEvents
  import opened ReconciliationStages
  import opened ReconciliationPass
  import opened Reconciliation
  import LatestPoint

  // ---------------------------------------------------------------- reading an event

  function Lower(s: string): (r: string)
    ensures |r| == |s|
  {
    seq(|s|, i requires 0 <= i < |s| => if 'A' <= s[i] <= 'Z' then s[i] - 'A' + 'a' else s[i])
  }

  predicate Contains(s: string, pattern: string) {
    LastIndex(s, pattern) >= 0
  }

  /** How the report normalises the fields of an event. */
  function Norm(s: string): string {
    Lower(TrimSpace(s))
  }

  predicate IsReconciliation(e: Event) {
    SaysReconciliation(Norm(e.eventType), Norm(e.component))
  }

  predicate SaysReconciliation(eventType: string, component: string) {
    Contains(eventType, "reconciliation") || Contains(eventType, "reconcile") || Contains(component, "reconciliation")
  }

  predicate IsGuardian(e: Event) {
    || Contains(Norm(e.eventType), "guardian") || Contains(Norm(e.component), "guardian")
    || Contains(Norm(e.eventType), "supervisor") || Contains(Norm(e.component), "supervisor")
  }

  predicate Succeeded(status: string) {
    Norm(status) == "success" || Norm(status) == "verified"
  }

  predicate Healthy(status: string) {
    Norm(status) == "success" || Norm(status) == "healthy" || Norm(status) == "verified"
  }

  // ---------------------------------------------------------------- the report

  datatype Report = Report(score: int, layer1: string, layer2: string, layer3: string, layer4: string, layer5: string,
                           overall: string, warnings: nat)

  /** The first listed, hence newest, reconciliation event of a point. */
  function NewestReconciliation(listed: seq<Event>, id: string): Option<Event> {
    if listed == [] then None
    else if listed[0].recoveryId == id && IsReconciliation(listed[0]) then Some(listed[0])
    else NewestReconciliation(listed[1..], id)
  }

  function NewestGuardian(listed: seq<Event>): Option<Event> {
    if listed == [] then None
    else if IsGuardian(listed[0]) then Some(listed[0])
    else NewestGuardian(listed[1..])
  }

  /** Which layers count as verified. */
  datatype Layers = Layers(core: bool, mirror: bool, offsite: bool, reconciliation: bool, guardian: bool)

  function LayersOf(latest: Option<Manifest>, listed: seq<Event>): Layers {
    var guardian := match NewestGuardian(listed) case None => false case Some(e) => Healthy(e.status);
    match latest
    case None => Layers(false, false, false, false, guardian)
    case Some(m) =>
      Layers(m.postgresSHA != "" && m.sqliteSHA != "", m.mirrorVerified, m.offsiteVerified,
             match NewestReconciliation(listed, m.id) case None => false case Some(e) => Succeeded(e.status),
             guardian)
  }

  function Count(l: Layers): nat {
    One(l.core) + One(l.mirror) + One(l.offsite) + One(l.reconciliation) + One(l.guardian)
  }

  function One(b: bool): nat {
    if b then 1 else 0
  }

  function Overall(latest: Option<Manifest>, l: Layers): string {
    if latest.None? then "UNKNOWN"
    else if Count(l) == 5 then "PROTECTED" else if Count(l) > 0 then "DEGRADED" else "FAILED"
  }

  const VERIFIED := "Verified"

  lemma VerifiedIsSuccess()
    ensures Succeeded(VERIFIED) && Healthy(VERIFIED)
  {
    TrimSolid(VERIFIED);
    assert Lower(VERIFIED) == "verified";
  }

  /** GetRecoveryStatus, from the listing and the events on. */
  method GetRecoveryStatus(backups: seq<Manifest>, listed: seq<Event>) returns (report: Report)
    ensures var latest := if backups == [] then None else Some(backups[|backups| - 1]);
            var l := LayersOf(latest, listed);
            && report.score == 20 * Count(l)
            && report.overall == Overall(latest, l)
            && (report.layer1 == VERIFIED <==> l.core) && (report.layer2 == VERIFIED <==> l.mirror)
            && (report.layer4 == VERIFIED <==> l.reconciliation) && (report.layer5 == VERIFIED <==> l.guardian)
            && (report.layer3 == VERIFIED <==> l.offsite || (latest.Some? && latest.value.offsiteStatus == VERIFIED))
            && report.warnings == (if latest.None? then 1 + One(!l.guardian) else 5 - Count(l))
    ensures backups == [] <==> report.overall == "UNKNOWN"
    ensures report.overall == "PROTECTED" <==> backups != [] && report.score == 100
    ensures report.overall == "DEGRADED" <==> backups != [] && 0 < report.score < 100
    ensures report.overall == "FAILED" <==> backups != [] && report.score == 0
    ensures backups != [] ==>
              var m := backups[|backups| - 1];
              && (report.layer1 == "Verified" <==> m.postgresSHA != "" && m.sqliteSHA != "")
              && (report.layer2 == "Verified" <==> m.mirrorVerified)
              && (report.layer3 == "Verified" <==> m.offsiteVerified || m.offsiteStatus == "Verified")
  {
    hide NewestReconciliation, NewestGuardian, Succeeded, Healthy;
    var latest := if backups == [] then None else Some(backups[|backups| - 1]);
    var layer1, layer2, layer3, layer4 := "Degraded", "Not verified", "Not verified", "No event";
    var score, warnings := 0, 1;
    if latest.Some? {
      layer1, layer2, layer3, score, warnings := CopyLayers(latest.value);
      var scored;
      layer4, scored := ReconciliationLayer(latest.value.id, listed);
      score := score + scored;
      if layer4 != VERIFIED {
        warnings := warnings + 1;
      }
    }
    var layer5, scored := GuardianLayer(listed);
    score := score + scored;
    if layer5 != VERIFIED {
      warnings := warnings + 1;
    }
    var overall :=
      if latest.None? then "UNKNOWN"
      else if score == 100 then "PROTECTED" else if score > 0 then "DEGRADED" else "FAILED";
    report := Report(score, layer1, layer2, layer3, layer4, layer5, overall, warnings);
  }

  /** Layers 1 to 3, from the manifest. */
  method CopyLayers(m: Manifest) returns (layer1: string, layer2: string, layer3: string, score: int, warnings: nat)
    ensures var core := m.postgresSHA != "" && m.sqliteSHA != "";
            && score == 20 * (One(core) + One(m.mirrorVerified) + One(m.offsiteVerified))
            && warnings == 3 - (One(core) + One(m.mirrorVerified) + One(m.offsiteVerified))
            && (layer1 == VERIFIED <==> core) && (layer2 == VERIFIED <==> m.mirrorVerified)
            && (layer3 == VERIFIED <==> m.offsiteVerified || m.offsiteStatus == VERIFIED)
  {
    layer1, layer2, layer3 := "Degraded", "Not verified", "Not verified";
    score, warnings := 0, 0;
    if m.postgresSHA != "" && m.sqliteSHA != "" {
      layer1, score := VERIFIED, score + 20;
    } else {
      warnings := warnings + 1;
    }
    if m.mirrorVerified {
      layer2, score := VERIFIED, score + 20;
    } else {
      warnings := warnings + 1;
    }
    if m.offsiteVerified {
      layer3, score := VERIFIED, score + 20;
    } else {
      layer3 := if m.offsiteStatus == "" then "Not verified" else m.offsiteStatus;
      warnings := warnings + 1;
    }
  }

  /** The layer 4 loop: the first reconciliation event of the point decides. */
  method ReconciliationLayer(id: string, listed: seq<Event>) returns (layer: string, scored: int)
    ensures var e := NewestReconciliation(listed, id);
            var verified := e.Some? && Succeeded(e.value.status);
            scored == 20 * One(verified) && (layer == VERIFIED <==> verified)
  {
    VerifiedIsSuccess();
    layer, scored := "No event", 0;
    assert listed[0..] == listed;
    for i := 0 to |listed|
      invariant NewestReconciliation(listed, id) == NewestReconciliation(listed[i..], id)
      invariant layer == "No event" && scored == 0
    {
      assert listed[i..][1..] == listed[i + 1..];
      var e := listed[i];
      if e.recoveryId != id {
        continue;
      }
      if IsReconciliation(e) {
        if Succeeded(e.status) {
          layer, scored := VERIFIED, 20;
        } else {
          layer := e.status;
        }
        return;
      }
    }
  }

  method GuardianLayer(listed: seq<Event>) returns (layer: string, scored: int)
    ensures var e := NewestGuardian(listed);
            var verified := e.Some? && Healthy(e.value.status);
            scored == 20 * One(verified) && (layer == VERIFIED <==> verified)
  {
    VerifiedIsSuccess();
    layer, scored := "No event", 0;
    assert listed[0..] == listed;
    for i := 0 to |listed|
      invariant NewestGuardian(listed) == NewestGuardian(listed[i..])
      invariant layer == "No event" && scored == 0
    {
      assert listed[i..][1..] == listed[i + 1..];
      var e := listed[i];
      if IsGuardian(e) {
        if Healthy(e.status) {
          layer, scored := VERIFIED, 20;
        } else {
          layer := e.status;
        }
        return;
      }
    }
  }

  // ---------------------------------------------------------------- which events and statuses count

  /** A status counts by its trimmed text in lower case: for a plain text, by the text itself. */
  lemma StatusesThatCount(status: string)
    requires Plain(status)
    ensures Succeeded(status) <==> status == "success" || status == "verified"
    ensures Healthy(status) <==> status == "success" || status == "verified" || status == "healthy"
  {
    NormPlain(status);
  }

  /** A text in capitals counts like the text in lower case, and so does white space around it. */
  lemma CapitalsCount()
    ensures Succeeded("SUCCESS") && Succeeded(" Verified\n") && Healthy("Healthy")
  {
    TrimSolid("SUCCESS");
    TrimSolid("Healthy");
    assert Core(" Verified\n", " ", "Verified", "\n");
    TrimIsCore(" Verified\n", " ", "Verified", "\n");
    assert Lower("SUCCESS") == "success" && Lower("Verified") == "verified" && Lower("Healthy") == "healthy";
  }

  /** An event of the guardian or the supervisor, by its type or by its component, has the word in it. */
  predicate Mentions(s: string, word: string, k: nat) {
    k + |word| <= |s| && s[k..k + |word|] == word
  }

  /**
    The newest guardian or supervisor event alone decides layer 5, and it counts exactly for the three good statuses: a
    failed one does not count, whatever came before it.
   */
  lemma GuardianDecides(latest: Option<Manifest>, e: Event, rest: seq<Event>, word: string, k: nat)
    requires Plain(e.eventType) && Plain(e.component) && Plain(e.status)
    requires word == "guardian" || word == "supervisor"
    requires Mentions(e.eventType, word, k) || Mentions(e.component, word, k)
    ensures LayersOf(latest, [e] + rest).guardian <==>
              e.status == "success" || e.status == "healthy" || e.status == "verified"
  {
    NormPlain(e.eventType);
    NormPlain(e.component);
    StatusesThatCount(e.status);
    if Mentions(e.eventType, word, k) {
      Present(e.eventType, word, k);
    } else {
      Present(e.component, word, k);
    }
    assert ([e] + rest)[0] == e;
  }

  /** An event that mentions neither word is passed over. */
  lemma OthersDoNotDecide(latest: Option<Manifest>, e: Event, rest: seq<Event>)
    requires Plain(e.eventType) && Plain(e.component)
    requires forall k: nat :: !Mentions(e.eventType, "guardian", k) && !Mentions(e.component, "guardian", k)
    requires forall k: nat :: !Mentions(e.eventType, "supervisor", k) && !Mentions(e.component, "supervisor", k)
    ensures LayersOf(latest, [e] + rest).guardian == LayersOf(latest, rest).guardian
  {
    NormPlain(e.eventType);
    NormPlain(e.component);
    NotMentioned(e.eventType, "guardian");
    NotMentioned(e.component, "guardian");
    NotMentioned(e.eventType, "supervisor");
    NotMentioned(e.component, "supervisor");
    assert ([e] + rest)[0] == e && ([e] + rest)[1..] == rest;
  }

  /**
    The newest reconciliation event of the point, by its type or its component, decides layer 4, and it counts exactly
    for the two good statuses.
   */
  lemma ReconciliationDecides(m: Manifest, e: Event, rest: seq<Event>, k: nat)
    requires Plain(e.eventType) && Plain(e.component) && Plain(e.status) && e.recoveryId == m.id
    requires Mentions(e.eventType, "reconciliation", k) || Mentions(e.eventType, "reconcile", k)
             || Mentions(e.component, "reconciliation", k)
    ensures LayersOf(Some(m), [e] + rest).reconciliation <==> e.status == "success" || e.status == "verified"
  {
    NormPlain(e.eventType);
    NormPlain(e.component);
    StatusesThatCount(e.status);
    if Mentions(e.eventType, "reconciliation", k) {
      Present(e.eventType, "reconciliation", k);
    } else if Mentions(e.eventType, "reconcile", k) {
      Present(e.eventType, "reconcile", k);
    } else {
      Present(e.component, "reconciliation", k);
    }
    assert ([e] + rest)[0] == e;
  }

  /** An event of another point, or one that does not mention it, is passed over. */
  lemma OthersAreNoReconciliation(m: Manifest, e: Event, rest: seq<Event>)
    requires Plain(e.eventType) && Plain(e.component)
    requires e.recoveryId != m.id
             || (forall k: nat :: !Mentions(e.eventType, "reconciliation", k) && !Mentions(e.eventType, "reconcile", k)
                   && !Mentions(e.component, "reconciliation", k))
    ensures LayersOf(Some(m), [e] + rest).reconciliation == LayersOf(Some(m), rest).reconciliation
  {
    NormPlain(e.eventType);
    NormPlain(e.component);
    if e.recoveryId == m.id {
      NotMentioned(e.eventType, "reconciliation");
      NotMentioned(e.eventType, "reconcile");
      NotMentioned(e.component, "reconciliation");
    }
    assert ([e] + rest)[0] == e && ([e] + rest)[1..] == rest;
  }

  lemma NotMentioned(s: string, word: string)
    requires forall k: nat :: !Mentions(s, word, k)
    ensures !Contains(s, word)
  {
    var k: nat := if LastIndex(s, word) >= 0 then LastIndex(s, word) else 0;
    assert !Mentions(s, word, k);
  }

  // ---------------------------------------------------------------- what the events of a pass count as

  lemma Absent(s: string, pattern: string, c: char)
    requires c in pattern && c !in s
    ensures !Contains(s, pattern)
  {
  }

  lemma Present(s: string, pattern: string, k: nat)
    requires k + |pattern| <= |s| && s[k..k + |pattern|] == pattern
    ensures Contains(s, pattern)
  {
    assert OccursAt(s, pattern, k);
  }

  predicate Plain(s: string) {
    Solid(s) && forall i :: 0 <= i < |s| ==> !('A' <= s[i] <= 'Z')
  }

  lemma NormPlain(s: string)
    requires Plain(s)
    ensures Norm(s) == s
  {
    TrimSolid(s);
  }

  lemma PlainStatus()
    ensures Plain("started") && Plain("verified") && Plain("success") && Plain("healthy")
  {
  }

  lemma PlainComponents()
    ensures Plain("reconciliation") && Plain("core") && Plain("office_mirror") && Plain("offsite") && Plain("guardian")
  {
  }

  lemma PlainStarted()
    ensures Plain("reconciliation_started") && Plain("core_verification")
  {
  }

  lemma PlainMirror()
    ensures Plain("office_mirror_verified") && Plain("office_mirror_rebuilt") && Plain("offsite_verified")
  {
  }

  lemma PlainEnd()
    ensures Plain("manifest_persisted") && Plain("reconciliation_completed") && Plain("guardian_health")
  {
  }

  lemma StepPlain(id: string, step: Step)
    ensures var e := EventOf(id, step); Plain(e.eventType) && Plain(e.component) && Plain(e.status)
  {
    hide Plain;
    PlainStatus();
    PlainComponents();
    PlainStarted();
    PlainMirror();
    PlainEnd();
  }

  lemma StepNorm(id: string, step: Step)
    ensures var e := EventOf(id, step);
            && Norm(e.eventType) == e.eventType && Norm(e.component) == e.component && Norm(e.status) == e.status
  {
    hide Plain, Norm, EventOf;
    var e := EventOf(id, step);
    StepPlain(id, step);
    NormPlain(e.eventType);
    NormPlain(e.component);
    NormPlain(e.status);
  }

  /** The three steps that count for layer 4. */
  const COUNTED := {Started, Persisted, Completed}

  lemma StepCounts(id: string, step: Step)
    ensures IsReconciliation(EventOf(id, step)) <==> step in COUNTED
  {
    StepNorm(id, step);
    hide Norm, Contains;
    var e := EventOf(id, step);
    match step
    case Started | Persisted | Completed => Present(e.component, "reconciliation", 0);
    case MirrorRebuilt | GuardianHealthy | CoreVerified | MirrorVerified | OffsiteVerified =>
      NotReconciliation(id, step);
  }

  /** 'l' and 'c' occur in both patterns; a text without one of them matches neither. */
  lemma Lacks(eventType: string, component: string, c: char)
    requires c == 'l' || c == 'c'
    requires c !in eventType && c !in component
    ensures !SaysReconciliation(eventType, component)
  {
    hide Contains;
    assert "reconciliation"[2] == 'c' && "reconciliation"[7] == 'l' && "reconcile"[2] == 'c' && "reconcile"[7] == 'l';
    Absent(eventType, "reconciliation", c);
    Absent(eventType, "reconcile", c);
    Absent(component, "reconciliation", c);
  }

  lemma NotReconciliation(id: string, step: Step)
    requires step !in COUNTED
    ensures var e := EventOf(id, step); !SaysReconciliation(e.eventType, e.component)
  {
    hide SaysReconciliation;
    match step
    case CoreVerified => Lacks("core_verification", "core", 'l');
    case MirrorVerified => Lacks("office_mirror_verified", "office_mirror", 'l');
    case MirrorRebuilt => RebuiltIsQuiet();
    case OffsiteVerified => Lacks("offsite_verified", "offsite", 'l');
    case GuardianHealthy => Lacks("guardian_health", "guardian", 'c');
    case Started | Persisted | Completed =>
  }

  /** "office_mirror_rebuilt" has an 'l' and a 'c', but no 'n'; "reconcile" and "reconciliation" have one. */
  lemma RebuiltIsQuiet()
    ensures !SaysReconciliation("office_mirror_rebuilt", "office_mirror")
  {
    hide Contains;
    assert "reconciliation"[4] == 'n' && "reconcile"[4] == 'n';
    Absent("office_mirror_rebuilt", "reconciliation", 'n');
    Absent("office_mirror_rebuilt", "reconcile", 'n');
    Absent("office_mirror", "reconciliation", 'n');
  }

  lemma GuardianCounts(id: string)
    ensures IsGuardian(EventOf(id, GuardianHealthy)) && Healthy(EventOf(id, GuardianHealthy).status)
  {
    StepNorm(id, GuardianHealthy);
    hide Norm, Contains;
    Present("guardian_health", "guardian", 0);
  }

  lemma StepStatus(id: string, step: Step)
    ensures Succeeded(EventOf(id, step).status) <==> step !in {Started, GuardianHealthy}
  {
    StepNorm(id, step);
    hide Norm;
  }

  // ---------------------------------------------------------------- the status after a pass

  lemma {:induction false} NewestIs(listed: seq<Event>, id: string, k: nat)
    requires k < |listed| && listed[k].recoveryId == id && IsReconciliation(listed[k])
    requires forall j :: 0 <= j < k ==> !IsReconciliation(listed[j])
    ensures NewestReconciliation(listed, id) == Some(listed[k])
  {
    hide IsReconciliation;
    if k > 0 {
      NewestIs(listed[1..], id, k - 1);
    }
  }

  lemma {:induction false} NewestIsNone(listed: seq<Event>, id: string)
    requires forall j :: 0 <= j < |listed| ==> !IsReconciliation(listed[j])
    ensures NewestReconciliation(listed, id) == None
  {
    hide IsReconciliation;
    if listed != [] {
      NewestIsNone(listed[1..], id);
    }
  }

  lemma CopiesAreQuiet(r: Result<Manifest, Failure>, copies: seq<Step>)
    requires Copies(r, copies)
    ensures forall i :: 0 <= i < |copies| ==> copies[i] !in COUNTED
  {
  }

  /** The newest events of a trail. */
  lemma LastOfTrail(before: seq<Event>, after: seq<Event>, id: string, r: Result<Manifest,
                    Failure>) returns (told: seq<Step>)
    requires Trail(before, after, id, r) && !Blank(id)
    ensures Opening(r) <= told && after == before + Events(id, told)
    ensures forall i :: |Opening(r)| <= i < |told| - |Ending(r)| ==> told[i] !in COUNTED
    ensures |told| >= |Ending(r)| && told[|told| - |Ending(r)|..] == Ending(r)
  {
    hide Blank, EventOf, Copies, Opening, Ending;
    var copies :| Copies(r, copies) && after == before + Events(id, Opening(r) + copies + Ending(r));
    told := Opening(r) + copies + Ending(r);
    CopiesAreQuiet(r, copies);
    forall i | |Opening(r)| <= i < |told| - |Ending(r)|
      ensures told[i] !in COUNTED
    {
      assert told[i] == copies[i - |Opening(r)|];
    }
  }

  /** Both event layers count after a pass that succeeded. */
  lemma EventsOfSuccess(before: seq<Event>, after: seq<Event>, id: string, m: Manifest)
    requires Trail(before, after, id, Ok(m)) && !Blank(id) && m.id == TrimSpace(id)
    ensures var l := LayersOf(Some(m), Newest(after, 500)); l.reconciliation && l.guardian
  {
    hide IsReconciliation, IsGuardian, Healthy, Succeeded, Blank, TrimSpace, Trail;
    var told := LastOfTrail(before, after, id, Ok(m));
    var listed, n := Newest(after, 500), |told|;
    assert told[n - 1] == told[n - 3..][2] == GuardianHealthy && told[n - 2] == told[n - 3..][1] == Completed;
    assert listed[0] == after[|before| + n - 1] == EventOf(id, GuardianHealthy);
    assert listed[1] == after[|before| + n - 2] == EventOf(id, Completed);
    StepCounts(id, Completed);
    StepCounts(id, GuardianHealthy);
    StepStatus(id, Completed);
    GuardianCounts(id);
    NewestIs(listed, m.id, 1);
  }

  lemma ArtifactHashesNonempty(sha: Sha, json: Json, cfg: Config, fs: FS, id: string, m: Manifest)
    requires Verified(sha, json, cfg, fs, id) == Some(m)
    ensures m.postgresSHA != "" && m.sqliteSHA != ""
  {
    hide *;
    StatusIsVerified(sha, json, cfg, fs, id, m);
    GatedHashes(sha, cfg, fs, id, m);
  }

  lemma GatedHashes(sha: Sha, cfg: Config, fs: FS, id: string, m: Manifest)
    requires Gated(sha, cfg, fs, id, m).Some?
    ensures m.postgresSHA != "" && m.sqliteSHA != ""
  {
    hide PostgresPath, SQLitePath;
    var h := HashAt(sha, fs, PostgresPath(cfg, id, m));
    var g := HashAt(sha, fs, SQLitePath(cfg, id, m));
    assert |h.value| == 64 && |g.value| == 64;
  }

  /** A pass that succeeds with an offsite root configured, over a timeline that loses nothing,
      leaves the point protected. */
  lemma SuccessMeansProtected(sha: Sha, json: Json, cfg: Config, fs0: FS, fs1: FS, calm: bool, before: seq<Event>,
                          after: seq<Event>,
                              id: string, m: Manifest)
    requires Outcome(sha, json, cfg, fs0, fs1, calm, id, Ok(m)) && Trail(before, after, id, Ok(m))
    requires !Blank(id) && m.id == TrimSpace(id) && cfg.offsiteRoot != ""
    ensures var l := LayersOf(Some(m), Newest(after, 500)); Count(l) == 5 && Overall(Some(m), l) == "PROTECTED"
  {
    hide *;
    EventsOfSuccess(before, after, id, m);
    OutcomeIsReconciled(sha, json, cfg, fs0, fs1, calm, id, m);
    ReconciledText(sha, json, cfg, fs1, id, m);
    ArtifactHashesNonempty(sha, json, cfg, fs1, id, m);
    ReconciledFlags(sha, json, cfg, fs1, id, m);
    AllFive(m, Newest(after, 500));
  }

  lemma AllFive(m: Manifest, listed: seq<Event>)
    requires m.postgresSHA != "" && m.sqliteSHA != "" && m.mirrorVerified && m.offsiteVerified
    requires var l := LayersOf(Some(m), listed); l.reconciliation && l.guardian
    ensures var l := LayersOf(Some(m), listed); Count(l) == 5 && Overall(Some(m), l) == "PROTECTED"
  {
    hide NewestReconciliation, NewestGuardian, Healthy, Succeeded;
  }

  lemma ReconciledFlags(sha: Sha, json: Json, cfg: Config, fs: FS, id: string, m: Manifest)
    requires Reconciled(sha, json, cfg, fs, id, m) && cfg.offsiteRoot != ""
    ensures m.mirrorVerified && m.offsiteVerified
  {
    hide Verified, Read, DigestAt, Blank;
  }

  lemma OutcomeIsReconciled(sha: Sha, json: Json, cfg: Config, fs0: FS, fs1: FS, calm: bool, id: string, m: Manifest)
    requires Outcome(sha, json, cfg, fs0, fs1, calm, id, Ok(m))
    ensures Reconciled(sha, json, cfg, fs1, id, m)
    ensures Verified(sha, json, cfg, fs0, id).Some? && SameCore(Verified(sha, json, cfg, fs0, id).value, m)
    ensures Kept(fs0, fs1, Touched(cfg, id, Verified(sha, json, cfg, fs0, id).value))
  {
    hide Verified, Reconciled, Touched, Kept, SameCore, Healable, ArtifactsKept;
  }

  /** A pass that stops before the manifest is written leaves layer 4 unverified, whatever happened before it. */
  lemma EarlyStopIsNotVerified(before: seq<Event>, after: seq<Event>, id: string, f: Failure, m: Manifest)
    requires Trail(before, after, id, Err(f)) && !f.FinalVerificationFailed?
    requires !Blank(id) && m.id == TrimSpace(id)
    ensures !LayersOf(Some(m), Newest(after, 500)).reconciliation
  {
    hide IsReconciliation, Blank, TrimSpace, NewestGuardian, Healthy, Trail;
    var told := LastOfTrail(before, after, id, Err(f));
    var listed, quiet := Newest(after, 500), |told| - 1;
    forall j | 0 <= j < |listed| && j < quiet
      ensures !IsReconciliation(listed[j])
    {
      var step := told[|told| - 1 - j];
      assert step !in COUNTED;
      assert listed[j] == after[|before| + |told| - 1 - j] == EventOf(id, step);
      StepCounts(id, step);
    }
    assert told[0] == Started;
    if quiet < |listed| {
      assert listed[quiet] == after[|before|] == EventOf(id, Started);
      StepCounts(id, Started);
      StepStatus(id, Started);
      NewestIs(listed, m.id, quiet);
    } else {
      NewestIsNone(listed, m.id);
    }
  }

  /** A pass that wrote the manifest but failed its last check still counts as a verified reconciliation. */
  lemma LateFailureStillCounts(before: seq<Event>, after: seq<Event>, id: string, m: Manifest)
    requires Trail(before, after, id, Err(FinalVerificationFailed)) && !Blank(id) && m.id == TrimSpace(id)
    ensures LayersOf(Some(m), Newest(after, 500)).reconciliation
  {
    hide IsReconciliation, Blank, TrimSpace, NewestGuardian, Healthy, Trail;
    var told := LastOfTrail(before, after, id, Err(FinalVerificationFailed));
    var listed, n := Newest(after, 500), |told|;
    assert told[n - 1] == told[n - 1..][0] == Persisted;
    assert listed[0] == after[|before| + n - 1] == EventOf(id, Persisted);
    StepCounts(id, Persisted);
    StepStatus(id, Persisted);
    NewestIs(listed, m.id, 0);
  }

  lemma ListingEndsWith(sha: Sha, json: Json, cfg: Config, fs: FS, id: string, m: Manifest)
    requires LatestPoint.LastTrusted(sha, json, cfg, fs, LatestPoint.Entries(cfg, fs)) == Some(id)
    requires Verified(sha, json, cfg, fs, id) == Some(m)
    ensures LatestListed(sha, json, cfg, fs) == Some(m)
  {
    hide LatestPoint.LastTrusted, LatestPoint.Listed, LatestPoint.Entries, Verified;
    LatestPoint.PickedIsListedLast(sha, json, cfg, fs, LatestPoint.Entries(cfg, fs));
  }

  /** The manifest the report calls the latest. */
  ghost function LatestListed(sha: Sha, json: Json, cfg: Config, fs: FS): Option<Manifest> {
    var listed := LatestPoint.Listed(sha, json, cfg, fs, LatestPoint.Entries(cfg, fs));
    if listed == [] then None else Some(listed[|listed| - 1])
  }

  /** After a pass over the picked point, the report's latest manifest is the one the pass returned. */
  lemma LatestIsThePassed(sha: Sha, json: Json, cfg: Config, fs0: FS, fs1: FS, calm: bool, id: string, m0: Manifest,
                          m: Manifest)
    requires LatestPoint.LastTrusted(sha, json, cfg, fs0, LatestPoint.Entries(cfg, fs0)) == Some(id)
    requires Outcome(sha, json, cfg, fs0, fs1, calm, id, Ok(m))
    requires Verified(sha, json, cfg, fs0, id) == Some(m0) && Separate(cfg, id, m0)
    requires LatestPoint.PointsAreEntries(cfg, fs0)
    requires LatestPoint.OthersOutside(json, cfg, fs0, id, Touched(cfg, id, m0))
    ensures LatestListed(sha, json, cfg, fs1) == Some(m) && m.id == m0.id
  {
    hide *;
    OutcomeIsReconciled(sha, json, cfg, fs0, fs1, calm, id, m);
    ReconciledText(sha, json, cfg, fs1, id, m);
    SameId(m0, m);
    LatestPoint.PickedStaysLast(sha, json, cfg, fs0, fs1, id, m0);
    ListingEndsWith(sha, json, cfg, fs1, id, m);
  }

  /**
    Once reconciliation of the latest recovery point succeeds, with an offsite root configured, the listing the
    report reads ends with that very manifest and the report says PROTECTED.
   */
  lemma LatestPassProtects(sha: Sha, json: Json, cfg: Config, fs0: FS, fs1: FS, calm: bool, before: seq<Event>,
                          after: seq<Event>,
                           id: string, m0: Manifest, m: Manifest)
    requires LatestPoint.LastTrusted(sha, json, cfg, fs0, LatestPoint.Entries(cfg, fs0)) == Some(id) && !Blank(id)
    requires Outcome(sha, json, cfg, fs0, fs1, calm, id, Ok(m)) && Trail(before, after, id, Ok(m))
    requires Verified(sha, json, cfg, fs0, id) == Some(m0) && m0.id == TrimSpace(id) && Separate(cfg, id, m0)
    requires cfg.offsiteRoot != "" && LatestPoint.PointsAreEntries(cfg, fs0)
    requires LatestPoint.OthersOutside(json, cfg, fs0, id, Touched(cfg, id, m0))
    ensures LatestListed(sha, json, cfg, fs1) == Some(m)
    ensures var l := LayersOf(Some(m), Newest(after, 500)); Count(l) == 5 && Overall(Some(m), l) == "PROTECTED"
  {
    hide *;
    LatestIsThePassed(sha, json, cfg, fs0, fs1, calm, id, m0, m);
    SuccessMeansProtected(sha, json, cfg, fs0, fs1, calm, before, after, id, m);
  }

  lemma SameId(m0: Manifest, m: Manifest)
    requires SameCore(m0, m)
    ensures m.id == m0.id
  {
  }
}
