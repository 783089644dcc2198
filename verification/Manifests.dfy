/** The manifest and its parts, field for field. */
module Manifests {
  import opened Wrappers
  import opened Json

  const SCHEMA_URL := "https://uncompose.org/schemas/project/v0/uncompose.project.schema.json"

  /** An extension subtree: namespace slugs to opaque values, order kept. */
  type Ext = Option<seq<Entry>>

  datatype Manifest = Manifest(
    schema: string,
    project: Project,
    assets: seq<Asset>,
    derivations: seq<Derivation>,
    evaluations: seq<Evaluation>,
    ext: Ext)

  datatype Project = Project(id: string, name: string, createdAt: string, ext: Ext)

  datatype Asset = Asset(
    id: string,
    path: string,
    sha256: string,
    size: U64,
    role: string,
    addedAt: string,
    lastVerified: Option<string>,
    ext: Ext)

  datatype Derivation = Derivation(
    id: string,
    inputs: seq<string>,
    outputs: seq<string>,
    tool: string,
    toolVersion: Option<string>,
    params: Option<seq<Entry>>,
    createdAt: string,
    job: Option<JobRef>,
    ext: Ext)

  /** A hashed reference to an imported job record. */
  datatype JobRef = JobRef(path: string, sha256: string, ext: Ext)

  datatype Evaluation = Evaluation(
    id: string,
    candidates: seq<string>,
    preference: Option<string>,
    confidence: Option<Json>,
    createdAt: string,
    record: RecordRef,
    ext: Ext)

  /** A hashed reference to an imported comparison record. */
  datatype RecordRef = RecordRef(path: string, sha256: string, ext: Ext)

  function NewManifest(id: string, name: string, createdAt: string): Manifest {
    Manifest(SCHEMA_URL, Project(id, name, createdAt, None), [], [], [], None)
  }

  function AssetIds(assets: seq<Asset>): set<string> {
    set a | a in assets :: a.id
  }

  function DerivationIds(derivations: seq<Derivation>): set<string> {
    set d | d in derivations :: d.id
  }

  function EvaluationIds(evaluations: seq<Evaluation>): set<string> {
    set e | e in evaluations :: e.id
  }
}
