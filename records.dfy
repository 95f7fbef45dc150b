/**
 * The rows the core reads and writes (backend/models.py): chat rooms,
 * their messages, uploaded PDFs and folders. Identifiers are strings,
 * timestamps are opaque integers read from a clock the caller supplies.
 */
module Records {
  import opened Base

  type Timestamp = int
  type UserId = string
  type RoomId = string
  type PdfId = string
  type FolderId = string

  datatype Role = User | Assistant

  /** A `messages` row. `phase` is the stored phase string. */
  datatype Message = Message(
    role: Role,
    content: string,
    phase: string,
    isExplanation: bool,
    createdAt: Timestamp)

  /**
   * A `chat_rooms` row. `learningPhase` and `currentConcept` are the
   * nullable string columns; `knowledgeLevel` defaults to 0.
   */
  datatype RoomRow = RoomRow(
    userId: UserId,
    pdfId: Option<PdfId>,
    title: string,
    learningPhase: Option<string>,
    currentConcept: Option<string>,
    originalQuestion: Option<string>,
    knowledgeLevel: int,
    createdAt: Timestamp,
    updatedAt: Timestamp)

  /** A `pdf_files` row; a None folder means the PDF sits at the root. */
  datatype PdfRow = PdfRow(
    userId: UserId,
    folderId: Option<FolderId>,
    filename: string,
    originalFilename: string,
    fileSize: nat,
    pageCount: Option<nat>,
    uploadedAt: Timestamp)

  /** A `folders` row. */
  datatype FolderRow = FolderRow(userId: UserId, name: string, createdAt: Timestamp)

  /**
   * Committing a change to a room row. `updated_at` carries
   * `onupdate=datetime.utcnow`: when the row changed and the change did
   * not set `updated_at` itself, the flush stamps it with the clock; a row
   * that did not change is not written at all.
   */
  function Flush(before: RoomRow, after: RoomRow, now: Timestamp): (r: RoomRow)
    ensures after == before ==> r == before
    ensures after != before ==> r.(updatedAt := after.updatedAt) == after
    ensures after != before && after.updatedAt == before.updatedAt ==> r.updatedAt == now
    ensures after.updatedAt != before.updatedAt ==> r == after
  {
    if after == before then before
    else if after.updatedAt != before.updatedAt then after
    else after.(updatedAt := now)
  }
}
