/**
  Recovery points on disk: the manifest, the core artifacts and the verification gate
  (backend/backup/backup_service.go:21-43, 615-789).
 */
module RecoveryPoint {
  import opened Common
  import opened Text
  import opened FileSystem

  datatype Manifest = Manifest(
    id: string, createdAt: int, postgres: string, sqlite: string, postgresSHA: string, sqliteSHA: string,
    size: int, status: string,
    mirrorPath: string, mirrorSHA: string, mirrorVerified: bool,
    offsiteProvider: string, offsiteStatus: string, offsitePath: string, offsiteSHA: string,
    offsiteRetentionUntil: int, offsiteVerified: bool)

  /** The metadata file of an offsite tree; a retention time of 0 stands for the zero time. */
  datatype OffsiteMetadata = OffsiteMetadata(recoveryId: string, sourceMirror: string, retentionUntil: int,
      packageSHA: string)

  /** encoding/json on the two documents. */
  datatype Json = Json(
    encode: Manifest -> string, decode: string -> Option<Manifest>,
    encodeMetadata: OffsiteMetadata -> string, decodeMetadata: string -> Option<OffsiteMetadata>)

  /** Decoding undoes encoding. */
  ghost predicate RoundTrips(json: Json) {
    forall m :: json.decode(json.encode(m)) == Some(m)
  }

  /** `offsiteRoot` is SCS_OFFSITE_ROOT without surrounding white space, "" when it is not set. */
  datatype Config = Config(backupRoot: string, mirrorRoot: string, offsiteRoot: string, retention: int)

  predicate ValidConfig(cfg: Config) {
    cfg.offsiteRoot == "" || Solid(cfg.offsiteRoot)
  }

  function PointDir(cfg: Config, id: string): string {
    Join(cfg.backupRoot, id)
  }

  function ManifestPath(cfg: Config, id: string): string {
    Join(PointDir(cfg, id), "manifest.json")
  }

  function PostgresPath(cfg: Config, id: string, m: Manifest): string {
    Join(PointDir(cfg, id), m.postgres)
  }

  function SQLitePath(cfg: Config, id: string, m: Manifest): string {
    Join(PointDir(cfg, id), m.sqlite)
  }

  function MirrorDir(cfg: Config, id: string): string {
    Join(cfg.mirrorRoot, id)
  }

  function OffsiteDir(cfg: Config, id: string): string {
    Join(cfg.offsiteRoot, id)
  }

  /** fileHash: the hexadecimal SHA-256 of a regular file. */
  function HashAt(sha: Sha, fs: FS, p: string): Option<string> {
    match Read(fs, p)
    case None => None
    case Some(content) => Some(Sum(sha, content))
  }

  function ManifestIn(json: Json, fs: FS, p: string): Option<Manifest> {
    if Read(fs, p).Some? then json.decode(Read(fs, p).value) else None
  }

  /** The manifest file of a point, if there is one that decodes. */
  function StoredManifest(json: Json, cfg: Config, fs: FS, id: string): Option<Manifest> {
    ManifestIn(json, fs, ManifestPath(cfg, id))
  }

  /** The comparison of both artifact hashes with the manifest. */
  function Gate(m: Manifest, postgresHash: Option<string>, sqliteHash: Option<string>): Option<Manifest> {
    if postgresHash == Some(m.postgresSHA) && sqliteHash == Some(m.sqliteSHA) then Some(m.(status := "verified"))
    else None
  }

  function Gated(sha: Sha, cfg: Config, fs: FS, id: string, m: Manifest): Option<Manifest> {
    Gate(m, HashAt(sha, fs, PostgresPath(cfg, id, m)), HashAt(sha, fs, SQLitePath(cfg, id, m)))
  }

  function Checked(sha: Sha, cfg: Config, fs: FS, id: string, m: Option<Manifest>): Option<Manifest> {
    if m.None? then None else Gated(sha, cfg, fs, id, m.value)
  }

  /** What verifyUnlocked returns when no read fails. */
  function Verified(sha: Sha, json: Json, cfg: Config, fs: FS, id: string): Option<Manifest> {
    if id == "" then None else Checked(sha, cfg, fs, id, StoredManifest(json, cfg, fs, id))
  }

  function Artifacts(cfg: Config, id: string, m: Manifest): set<string> {
    {PostgresPath(cfg, id, m), SQLitePath(cfg, id, m)}
  }

  lemma HashFrame(sha: Sha, fs: FS, fs': FS, p: string)
    requires SameFile(fs, fs', p)
    ensures HashAt(sha, fs, p) == HashAt(sha, fs', p)
  {
  }

  lemma StoredFrame(json: Json, fs: FS, fs': FS, p: string)
    requires SameFile(fs, fs', p)
    ensures ManifestIn(json, fs, p) == ManifestIn(json, fs', p)
  {
  }

  lemma GatedFrame(sha: Sha, cfg: Config, fs: FS, fs': FS, id: string, m: Manifest)
    requires SameFile(fs, fs', PostgresPath(cfg, id, m)) && SameFile(fs, fs', SQLitePath(cfg, id, m))
    ensures Gated(sha, cfg, fs', id, m) == Gated(sha, cfg, fs, id, m)
  {
    var p, q := PostgresPath(cfg, id, m), SQLitePath(cfg, id, m);
    HashFrame(sha, fs, fs', p);
    HashFrame(sha, fs, fs', q);
  }

  /** The files a verification reads once it has the manifest. */
  predicate SameArtifacts(cfg: Config, fs: FS, fs': FS, id: string, m: Option<Manifest>) {
    m.Some? ==> SameFile(fs, fs', PostgresPath(cfg, id, m.value)) && SameFile(fs, fs', SQLitePath(cfg, id, m.value))
  }

  lemma CheckedFrame(sha: Sha, cfg: Config, fs: FS, fs': FS, id: string, m: Option<Manifest>)
    requires SameArtifacts(cfg, fs, fs', id, m)
    ensures Checked(sha, cfg, fs', id, m) == Checked(sha, cfg, fs, id, m)
  {
    match m
    case None =>
    case Some(v) => GatedFrame(sha, cfg, fs, fs', id, v);
  }

  /** Verification reads the manifest and the two artifacts it names, nothing else. */
  lemma VerifiedFrame(sha: Sha, json: Json, cfg: Config, fs: FS, fs': FS, id: string, m: Option<Manifest>)
    requires StoredManifest(json, cfg, fs, id) == m == StoredManifest(json, cfg, fs', id)
    requires SameArtifacts(cfg, fs, fs', id, m)
    ensures Verified(sha, json, cfg, fs', id) == Verified(sha, json, cfg, fs, id)
  {
    CheckedFrame(sha, cfg, fs, fs', id, m);
  }

  /** A changed artifact has another hash, unless the two contents collide. */
  lemma ChangedHash(sha: Sha, fs: FS, fs': FS, p: string, inputs: set<string>)
    requires CollisionFree(sha, inputs) && Read(fs, p).Some? && Read(fs, p).value in inputs
    requires Read(fs', p).Some? ==> Read(fs', p).value in inputs
    requires !SameFile(fs, fs', p)
    ensures HashAt(sha, fs', p) != HashAt(sha, fs, p)
  {
    if Read(fs', p).Some? && Sum(sha, Read(fs', p).value) == Sum(sha, Read(fs, p).value) {
      SumInjective(sha, inputs, Read(fs', p).value, Read(fs, p).value);
    }
  }

  /** The gate lets exactly the recorded hashes through. */
  lemma GateIsTight(m: Manifest, h: Option<string>, g: Option<string>, h': Option<string>, g': Option<string>)
    requires Gate(m, h, g).Some? && (h != h' || g != g')
    ensures Gate(m, h', g').None?
  {
  }

  lemma DamageIsGated(sha: Sha, cfg: Config, fs: FS, fs': FS, id: string, inputs: set<string>, m: Manifest, p: string)
    requires Gated(sha, cfg, fs, id, m).Some?
    requires p in Artifacts(cfg, id, m) && !SameFile(fs, fs', p)
    requires CollisionFree(sha, inputs) && Read(fs, p).Some? && Read(fs, p).value in inputs
    requires Read(fs', p).Some? ==> Read(fs', p).value in inputs
    ensures Gated(sha, cfg, fs', id, m).None?
  {
    hide CollisionFree, Read, SameFile, PostgresPath, SQLitePath, HashAt, Gate;
    ChangedHash(sha, fs, fs', p, inputs);
    var q, r := PostgresPath(cfg, id, m), SQLitePath(cfg, id, m);
    GateIsTight(m, HashAt(sha, fs, q), HashAt(sha, fs, r), HashAt(sha, fs', q), HashAt(sha, fs', r));
  }

  /** Changing either artifact, and not by a collision, makes the point fail verification. */
  lemma DamageIsDetected(sha: Sha, json: Json, cfg: Config, fs: FS, fs': FS, id: string, inputs: set<string>,
                         m: Manifest, p: string)
    requires StoredManifest(json, cfg, fs, id) == Some(m) == StoredManifest(json, cfg, fs', id)
    requires Verified(sha, json, cfg, fs, id).Some?
    requires p in Artifacts(cfg, id, m) && Read(fs, p).Some? && !SameFile(fs, fs', p)
    requires CollisionFree(sha, inputs) && Read(fs, p).value in inputs
    requires Read(fs', p).Some? ==> Read(fs', p).value in inputs
    ensures Verified(sha, json, cfg, fs', id).None?
  {
    hide Gated, CollisionFree, Read, StoredManifest;
    DamageIsGated(sha, cfg, fs, fs', id, inputs, m, p);
  }
}
