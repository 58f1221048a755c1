/** The database rows the services read and write, and a session's uncommitted changes. */
module Rows {
  import opened Text

  datatype ObjectId = ObjectId(bucket: string, key: string)
  datatype PartId = PartId(upload: string, number: nat)

  /** Size and ETag of a stored payload: an `objects` row or an `objects_multiparts_parts` row. */
  datatype Row = Row(size: nat, etag: string)

  /** An `objects_multiparts` row: where the upload was started. */
  datatype UploadRow = UploadRow(bucket: string, key: string)

  datatype Tables = Tables(
    objects: map<ObjectId, Row>,
    uploads: map<string, UploadRow>,
    parts: map<PartId, Row>)

  /** What a session has flushed but not committed. */
  datatype Pending = Pending(
    putObjects: map<ObjectId, Row>,
    putUploads: map<string, UploadRow>,
    putParts: map<PartId, Row>,
    dropParts: set<PartId>,
    dropUploads: set<string>)

  const NO_CHANGES := Pending(map[], map[], map[], {}, {})

  function CommitChanges(t: Tables, p: Pending): Tables {
    Tables(t.objects + p.putObjects, (t.uploads + p.putUploads) - p.dropUploads, (t.parts + p.putParts) - p.dropParts)
  }

  function ObjectRow(t: Tables, id: ObjectId): Option<Row> {
    if id in t.objects then Some(t.objects[id]) else None
  }

  function PartRow(t: Tables, id: PartId): Option<Row> {
    if id in t.parts then Some(t.parts[id]) else None
  }

  /** The part rows of one upload. */
  function PartsOf(t: Tables, upload: string): set<PartId> {
    set id | id in t.parts && id.upload == upload
  }
}
