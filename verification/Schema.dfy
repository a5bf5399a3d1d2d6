/** The rows, documents and events that one file owns: PostgreSQL tables (app/schema.sql), the
    Elasticsearch documents derived from them, and the outbox that carries changes from one to the other. */
module Schema {
  datatype Option<+T> = None | Some(value: T)

  type Vec = seq<real>

  /** The embedding model: some fixed pure function of the text. */
  const Embed: string -> Vec

  /** sha256 of a text. Being a constructor, it is injective, which is the only fact used about it. */
  datatype Sha256 = Sha256(text: string)

  /** Row and document ids. A chunk id is uuid5 of (file, version, order); every other id is a random uuid. */
  datatype Id = ChunkId(file: string, version: nat, order: nat) | Uuid4(n: nat)

  datatype ChunkRow = ChunkRow(version: nat, order: nat, content: string, page: int, hash: Sha256, sim: int, available: bool)

  datatype SummaryRow = SummaryRow(version: nat, text: string, sources: seq<Id>, coverage: real, heading: string)

  datatype Validity = Valid | Relocated

  datatype AnchorRow = AnchorRow(
    summary: Id, section: string, version: nat, target: Option<Id>,
    targetHash: Option<Sha256>, fingerprint: Option<string>, validity: Validity)

  /** The four active_*_version columns of kb_file. */
  datatype Pointers = Pointers(doc: nat, chunk: nat, summary: nat, anchor: nat)

  /** Everything PostgreSQL stores about one file. `flipped` records that a first publish has happened:
      before it the pointers hold their column default 1 although no version is published. */
  datatype Pg = Pg(
    file: string, tenant: string,
    chunks: map<Id, ChunkRow>, summaries: map<Id, SummaryRow>, anchors: map<Id, AnchorRow>,
    versions: seq<nat>, active: Pointers, flipped: bool)

  datatype DocKind =
    | ChunkDoc(page: int, order: nat, version: int, sim: int)
    | SummaryDoc(sources: seq<Id>, coverage: real)

  /** An Elasticsearch document. `visible` is available_int == 1. */
  datatype Doc = Doc(text: string, vec: Option<Vec>, file: string, tenant: string, kind: DocKind, visible: bool)

  type Index = map<Id, Doc>

  datatype Event =
    | IndexDoc(id: Id, source: Doc)
    | SetAvailable(ids: seq<Id>, available: bool)
    | Delete(ids: seq<Id>)
    | Unknown(name: string)

  datatype Status = Pending | Published | Failed

  /** A kb_outbox row; `published` is published_at IS NOT NULL and `created` is created_at, which all
      events of one transaction share. */
  datatype OutboxRow = OutboxRow(event: Event, created: nat, attempts: nat, status: Status, published: bool)

  type Outbox = map<nat, OutboxRow>

  function At(es: Index, id: Id): Option<Doc> {
    if id in es then Some(es[id]) else None
  }

  predicate Open(outbox: Outbox, k: nat) {
    k in outbox && !outbox[k].published
  }

  function Unpublished(outbox: Outbox): set<nat> {
    set k | k in outbox && Open(outbox, k)
  }

  predicate Live(pg: Pg, id: Id) {
    id in pg.chunks || id in pg.summaries
  }

  predicate ActiveId(pg: Pg, id: Id) {
    || (id in pg.chunks && pg.chunks[id].version == pg.active.chunk)
    || (id in pg.summaries && pg.summaries[id].version == pg.active.summary)
  }

  /** The version of a live row. */
  function VersionOf(pg: Pg, id: Id): nat
    requires Live(pg, id)
  {
    if id in pg.chunks then pg.chunks[id].version else pg.summaries[id].version
  }
}
