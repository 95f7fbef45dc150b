/**
 * The table operations of backend/server.py over chat rooms, their
 * message logs, uploaded PDFs and folders: the ownership checks, the
 * deletes that must leave no dangling reference, moving and linking
 * PDFs, starting a lesson on a room and the upload guards.
 *
 * The database is the four maps of a `Store`; every operation is first
 * given as a function on those maps, and the `Store` methods are proved
 * to perform exactly that function.
 */
module Library {
  import opened Base
  import opened PyStr
  import opened Records
  import ConceptKeyword

  /** An `HTTPException`: status code and detail. */
  datatype HttpError = HttpError(status: int, detail: string)

  const RoomNotFound := HttpError(404, "Room not found")
  const AccessDenied := HttpError(403, "Access denied")
  const PdfNotFound := HttpError(404, "PDF not found")
  const FolderNotFound := HttpError(404, "Folder not found")
  const TargetFolderNotFound := HttpError(404, "Target folder not found")
  const NotAPdf := HttpError(400, "PDF 파일만 업로드 가능합니다")
  const TooLarge := HttpError(400, "파일 크기는 50MB 이하여야 합니다")

  function UploadFailed(reason: string): HttpError {
    HttpError(500, "업로드 실패: " + reason)
  }

  const ChunkSize: nat := 1024 * 1024
  const MaxUploadBytes: nat := 50 * 1024 * 1024

  type Rooms = map<RoomId, RoomRow>
  type Logs = map<RoomId, seq<Message>>
  type Pdfs = map<PdfId, PdfRow>
  type Folders = map<FolderId, FolderRow>

  // ---------------------------------------------------------------------
  // Referential consistency
  // ---------------------------------------------------------------------

  /** A room's linked PDF exists and belongs to the room's owner. */
  predicate RoomLinksResolve(rooms: Rooms, pdfs: Pdfs) {
    forall r :: r in rooms && rooms[r].pdfId.Some? ==>
      rooms[r].pdfId.value in pdfs && pdfs[rooms[r].pdfId.value].userId == rooms[r].userId
  }

  /** A PDF's folder exists and belongs to the PDF's owner. */
  predicate PdfFoldersResolve(pdfs: Pdfs, folders: Folders) {
    forall p :: p in pdfs && pdfs[p].folderId.Some? ==>
      pdfs[p].folderId.value in folders && folders[pdfs[p].folderId.value].userId == pdfs[p].userId
  }

  /**
   * The tables hold no dangling reference: messages belong to existing
   * rooms, and room-to-PDF and PDF-to-folder links resolve within one
   * owner. Folder ids are uuid4 strings, so neither the empty string nor
   * the listing keyword "root" is one.
   */
  predicate Consistent(rooms: Rooms, logs: Logs, pdfs: Pdfs, folders: Folders) {
    logs.Keys <= rooms.Keys
    && RoomLinksResolve(rooms, pdfs)
    && PdfFoldersResolve(pdfs, folders)
    && "" !in folders && "root" !in folders
  }

  // ---------------------------------------------------------------------
  // Ownership checks
  // ---------------------------------------------------------------------

  /**
   * The check of `get_messages` and `delete_room`: the room is looked up by
   * id alone, so a missing room is 404 and another user's room is 403.
   */
  function RoomAccess(rooms: Rooms, id: RoomId, user: UserId): (r: Result<RoomRow, HttpError>)
    ensures r == Err(RoomNotFound) <==> id !in rooms
    ensures r == Err(AccessDenied) <==> id in rooms && rooms[id].userId != user
    ensures r.Ok? <==> id in rooms && rooms[id].userId == user
    ensures r.Ok? ==> r.value == rooms[id]
  {
    if id !in rooms then Err(RoomNotFound)
    else if rooms[id].userId != user then Err(AccessDenied)
    else Ok(rooms[id])
  }

  /**
   * The lookup of `initialize_learning` and `link_pdf_to_room`: the room
   * is filtered by id and owner together, so another user's room is
   * indistinguishable from a missing one.
   */
  function OwnedRoom(rooms: Rooms, id: RoomId, user: UserId): (r: Result<RoomRow, HttpError>)
    ensures r.Ok? <==> id in rooms && rooms[id].userId == user
    ensures r.Ok? ==> r.value == rooms[id]
    ensures r.Err? ==> r.error == RoomNotFound
  {
    if id in rooms && rooms[id].userId == user then Ok(rooms[id]) else Err(RoomNotFound)
  }

  /** A PDF looked up by id and owner. */
  function OwnedPdf(pdfs: Pdfs, id: PdfId, user: UserId): (r: Result<PdfRow, HttpError>)
    ensures r.Ok? <==> id in pdfs && pdfs[id].userId == user
    ensures r.Ok? ==> r.value == pdfs[id]
    ensures r.Err? ==> r.error == PdfNotFound
  {
    if id in pdfs && pdfs[id].userId == user then Ok(pdfs[id]) else Err(PdfNotFound)
  }

  /** The two lookups differ exactly on another user's room: 403 against 404. */
  lemma {:induction false} ForeignRoomStatus(rooms: Rooms, id: RoomId, user: UserId)
    requires id in rooms && rooms[id].userId != user
    ensures RoomAccess(rooms, id, user).error.status == 403
    ensures OwnedRoom(rooms, id, user).error.status == 404
  {
  }

  // ---------------------------------------------------------------------
  // Folder targets (upload and move) and the PDF listing
  // ---------------------------------------------------------------------

  /**
   * The folder check of `upload_pdf` and `move_pdf` as written:
   * `if folder_id:` skips the lookup for None and for the empty string,
   * and the value is stored unchanged.
   */
  function FolderTargetAsWritten(folders: Folders, user: UserId, target: Option<string>, missing: HttpError)
    : (r: Result<Option<FolderId>, HttpError>)
    ensures r.Ok? ==> r.value == target
    ensures target == Some("") ==> r == Ok(Some(""))
  {
    if target == None || target == Some("") then Ok(target)
    else if target.value in folders && folders[target.value].userId == user then Ok(target)
    else Err(missing)
  }

  /** The empty folder id, which is falsy and names no folder, means the root. */
  function NormalizeFolder(target: Option<string>): (r: Option<FolderId>)
    ensures r == None <==> target == None || target == Some("")
    ensures r.Some? ==> r == target
  {
    if target == Some("") then None else target
  }

  /**
   * The folder check with the empty id read as the root: whatever it
   * accepts is the root or a folder of the caller.
   */
  function FolderTarget(folders: Folders, user: UserId, target: Option<string>, missing: HttpError)
    : (r: Result<Option<FolderId>, HttpError>)
    ensures r.Ok? ==> r.value == NormalizeFolder(target)
    ensures r.Ok? && r.value.Some? ==> r.value.value in folders && folders[r.value.value].userId == user
    ensures r.Err? <==> NormalizeFolder(target).Some?
                        && !(target.value in folders && folders[target.value].userId == user)
    ensures r.Err? ==> r.error == missing
  {
    match NormalizeFolder(target)
    case None => Ok(None)
    case Some(f) => if f in folders && folders[f].userId == user then Ok(Some(f)) else Err(missing)
  }

  /** Both checks agree on every target except the empty id. */
  lemma {:induction false} FolderTargetAgrees(folders: Folders, user: UserId, target: Option<string>, missing: HttpError)
    requires target != Some("")
    ensures FolderTarget(folders, user, target, missing) == FolderTargetAsWritten(folders, user, target, missing)
  {
  }

  /**
   * `list_pdfs`: the caller's PDFs at the root (no parameter, or "root")
   * or in the named folder.
   */
  function ListPdfs(pdfs: Pdfs, user: UserId, folder: Option<string>): (r: set<PdfId>)
    ensures forall p :: p in r <==> (p in pdfs && pdfs[p].userId == user
      && (if folder == None || folder == Some("root") then pdfs[p].folderId == None
          else pdfs[p].folderId == folder))
  {
    if folder == None || folder == Some("root") then
      set p | p in pdfs && pdfs[p].userId == user && pdfs[p].folderId == None
    else
      set p | p in pdfs && pdfs[p].userId == user && pdfs[p].folderId == folder
  }

  /**
   * In consistent tables every PDF of a user shows up in the root listing
   * or in the listing of one of that user's folders.
   */
  lemma {:induction false} EveryPdfListed(pdfs: Pdfs, folders: Folders, user: UserId, p: PdfId)
    requires PdfFoldersResolve(pdfs, folders) && "root" !in folders
    requires p in pdfs && pdfs[p].userId == user
    ensures p in ListPdfs(pdfs, user, None)
            || exists f :: f in folders && folders[f].userId == user && p in ListPdfs(pdfs, user, Some(f))
  {
    match pdfs[p].folderId
    case None =>
    case Some(f) =>
      assert f != "root";
      assert p in ListPdfs(pdfs, user, Some(f));
  }

  /**
   * The empty folder id slips through the check as written: an upload
   * into folder "" stores a PDF whose folder does not exist, and the PDF
   * is missing from the root listing and from every folder's listing.
   */
  lemma {:induction false} EmptyFolderIdDangles(
    pdfs: Pdfs, folders: Folders, user: UserId, p: PdfId, row: PdfRow, missing: HttpError)
    requires "" !in folders && p !in pdfs
    requires row.userId == user
    requires FolderTargetAsWritten(folders, user, Some(""), missing).Ok?
    requires row.folderId == FolderTargetAsWritten(folders, user, Some(""), missing).value
    ensures !PdfFoldersResolve(pdfs[p := row], folders)
    ensures p !in ListPdfs(pdfs[p := row], user, None)
    ensures forall f :: f in folders ==> p !in ListPdfs(pdfs[p := row], user, Some(f))
  {
    var after := pdfs[p := row];
    assert after[p].folderId == Some("");
  }

  /** With the empty id read as the root, the same upload lands in the root listing. */
  lemma {:induction false} EmptyFolderIdIsRoot(
    pdfs: Pdfs, folders: Folders, user: UserId, p: PdfId, row: PdfRow, missing: HttpError)
    requires PdfFoldersResolve(pdfs, folders) && p !in pdfs
    requires row.userId == user
    requires FolderTarget(folders, user, Some(""), missing).Ok?
    requires row.folderId == FolderTarget(folders, user, Some(""), missing).value
    ensures PdfFoldersResolve(pdfs[p := row], folders)
    ensures p in ListPdfs(pdfs[p := row], user, None)
  {
  }

  // ---------------------------------------------------------------------
  // Specification functions of the bulk updates
  // ---------------------------------------------------------------------

  /** The caller's rooms linked to a PDF (backend/server.py:757-760). */
  function LinkedRooms(rooms: Rooms, user: UserId, pdf: PdfId): set<RoomId> {
    set r | r in rooms && rooms[r].pdfId == Some(pdf) && rooms[r].userId == user
  }

  /**
   * Every linked room of the caller loses its PDF; the commit stamps the
   * changed rows' `updated_at`.
   */
  function UnlinkPdf(rooms: Rooms, user: UserId, pdf: PdfId, now: Timestamp): (r: Rooms)
    ensures r.Keys == rooms.Keys
  {
    map id | id in rooms ::
      if id in LinkedRooms(rooms, user, pdf) then Flush(rooms[id], rooms[id].(pdfId := None), now)
      else rooms[id]
  }

  /** Every PDF in the folder, whoever owns it, moves to the root. */
  function Reroot(pdfs: Pdfs, folder: FolderId): (r: Pdfs)
    ensures r.Keys == pdfs.Keys
  {
    map p | p in pdfs :: if pdfs[p].folderId == Some(folder) then pdfs[p].(folderId := None) else pdfs[p]
  }

  /** Deleting an owned PDF unlinks every room that pointed to it. */
  lemma {:induction false} UnlinkPdfLeavesNoLink(rooms: Rooms, pdfs: Pdfs, user: UserId, pdf: PdfId, now: Timestamp)
    requires RoomLinksResolve(rooms, pdfs)
    requires pdf in pdfs && pdfs[pdf].userId == user
    ensures RoomLinksResolve(UnlinkPdf(rooms, user, pdf, now), pdfs - {pdf})
    ensures forall id :: id in rooms && rooms[id].pdfId == Some(pdf) ==> id in LinkedRooms(rooms, user, pdf)
  {
    var after := UnlinkPdf(rooms, user, pdf, now);
    forall id | id in after
      ensures after[id].pdfId.Some? ==> after[id].pdfId.value in pdfs - {pdf}
                                        && (pdfs - {pdf})[after[id].pdfId.value].userId == after[id].userId
    {
      if id in LinkedRooms(rooms, user, pdf) {
        var row := rooms[id];
        assert after[id].(updatedAt := row.updatedAt) == row.(pdfId := None);
        assert after[id].pdfId == None;
      } else {
        assert after[id] == rooms[id];
      }
    }
  }

  /** Only the linked rooms change, and only in `pdf_id` and `updated_at`. */
  lemma {:induction false} UnlinkPdfFrame(rooms: Rooms, user: UserId, pdf: PdfId, now: Timestamp, id: RoomId)
    requires id in rooms
    ensures id !in LinkedRooms(rooms, user, pdf) ==> UnlinkPdf(rooms, user, pdf, now)[id] == rooms[id]
    ensures id in LinkedRooms(rooms, user, pdf) ==>
      UnlinkPdf(rooms, user, pdf, now)[id] == rooms[id].(pdfId := None, updatedAt := now)
  {
  }

  /** Deleting an owned folder moves its PDFs to the root and leaves no dangling folder. */
  lemma {:induction false} RerootLeavesNoFolder(pdfs: Pdfs, folders: Folders, folder: FolderId)
    requires PdfFoldersResolve(pdfs, folders)
    ensures PdfFoldersResolve(Reroot(pdfs, folder), folders - {folder})
    ensures forall p :: p in pdfs && pdfs[p].folderId == Some(folder) ==> Reroot(pdfs, folder)[p].folderId == None
    ensures forall p :: p in pdfs && pdfs[p].folderId != Some(folder) ==> Reroot(pdfs, folder)[p] == pdfs[p]
  {
    var after := Reroot(pdfs, folder);
    forall p | p in after && after[p].folderId.Some?
      ensures after[p].folderId.value in folders - {folder}
      ensures (folders - {folder})[after[p].folderId.value].userId == after[p].userId
    {
      assert after[p] == pdfs[p];
    }
  }

  // ---------------------------------------------------------------------
  // delete_multiple_rooms
  // ---------------------------------------------------------------------

  /** The state of the loop of `delete_multiple_rooms`: rooms marked for deletion and the count. */
  datatype Sweep = Sweep(pending: set<RoomId>, count: nat)

  /**
   * One lookup of the loop: with autoflush the marked deletions are sent
   * before the query, so a room already marked is no longer found;
   * without it the query still returns the marked room.
   */
  predicate Found(rooms: Rooms, pending: set<RoomId>, id: RoomId, autoflush: bool) {
    id in rooms && (!autoflush || id !in pending)
  }

  /** The loop over the requested ids, as a function of a prefix of them. */
  function DeleteSweep(rooms: Rooms, ids: seq<RoomId>, user: UserId, autoflush: bool): Sweep
    decreases |ids|
  {
    if ids == [] then Sweep({}, 0)
    else
      var s := DeleteSweep(rooms, ids[..|ids| - 1], user, autoflush);
      var id := ids[|ids| - 1];
      if Found(rooms, s.pending, id, autoflush) && rooms[id].userId == user
      then Sweep(s.pending + {id}, s.count + 1)
      else s
  }

  /** The caller's existing rooms among the requested ids. */
  function OwnedAmong(rooms: Rooms, ids: seq<RoomId>, user: UserId): set<RoomId> {
    set id | id in ids && id in rooms && rooms[id].userId == user
  }

  /** The positions of the requested ids that name a room of the caller. */
  function OwnedPositions(rooms: Rooms, ids: seq<RoomId>, user: UserId): set<nat> {
    set i: nat | i < |ids| && ids[i] in rooms && rooms[ids[i]].userId == user
  }

  lemma {:induction false} OwnedAmongSnoc(rooms: Rooms, ids: seq<RoomId>, user: UserId)
    requires ids != []
    ensures var last := ids[|ids| - 1];
      OwnedAmong(rooms, ids, user)
      == OwnedAmong(rooms, ids[..|ids| - 1], user)
         + (if last in rooms && rooms[last].userId == user then {last} else {})
  {
    var front := ids[..|ids| - 1];
    assert ids == front + [ids[|ids| - 1]];
  }

  lemma {:induction false} OwnedPositionsSnoc(rooms: Rooms, ids: seq<RoomId>, user: UserId)
    requires ids != []
    ensures var n := |ids| - 1;
      OwnedPositions(rooms, ids, user)
      == OwnedPositions(rooms, ids[..n], user)
         + (if ids[n] in rooms && rooms[ids[n]].userId == user then {n} else {})
  {
    var n := |ids| - 1;
    forall i: nat | i < n ensures ids[..n][i] == ids[i] { }
  }

  /**
   * Either way, exactly the caller's existing rooms among the ids are
   * deleted. With autoflush the count is the number of such rooms; without
   * it, the number of positions naming one, so a repeated id counts twice.
   */
  lemma {:induction false} DeleteSweepCounts(rooms: Rooms, ids: seq<RoomId>, user: UserId, autoflush: bool)
    ensures DeleteSweep(rooms, ids, user, autoflush).pending == OwnedAmong(rooms, ids, user)
    ensures autoflush ==> DeleteSweep(rooms, ids, user, autoflush).count == |OwnedAmong(rooms, ids, user)|
    ensures !autoflush ==> DeleteSweep(rooms, ids, user, autoflush).count == |OwnedPositions(rooms, ids, user)|
    decreases |ids|
  {
    if ids != [] {
      var n := |ids| - 1;
      var id := ids[n];
      var owned := OwnedAmong(rooms, ids[..n], user);
      var positions := OwnedPositions(rooms, ids[..n], user);
      DeleteSweepCounts(rooms, ids[..n], user, autoflush);
      OwnedAmongSnoc(rooms, ids, user);
      OwnedPositionsSnoc(rooms, ids, user);
      var mine := id in rooms && rooms[id].userId == user;
      SweepStep(rooms, ids, user, autoflush, owned);
      if mine {
        GrowsByOne(positions, n);
        if id !in owned {
          GrowsByOne(owned, id);
        }
      }
    }
  }

  /** One more id, given that the rooms marked so far are `owned`. */
  lemma SweepStep(rooms: Rooms, ids: seq<RoomId>, user: UserId, autoflush: bool, owned: set<RoomId>)
    requires ids != [] && DeleteSweep(rooms, ids[..|ids| - 1], user, autoflush).pending == owned
    ensures var id := ids[|ids| - 1];
      var before := DeleteSweep(rooms, ids[..|ids| - 1], user, autoflush);
      var mine := id in rooms && rooms[id].userId == user;
      DeleteSweep(rooms, ids, user, autoflush)
      == if mine && (!autoflush || id !in owned) then Sweep(owned + {id}, before.count + 1)
         else if mine then Sweep(owned + {id}, before.count)
         else Sweep(owned + {}, before.count)
  {
    var id := ids[|ids| - 1];
    assert id in owned ==> owned + {id} == owned;
    assert owned + {} == owned;
  }

  lemma GrowsByOne<T>(s: set<T>, x: T)
    requires x !in s
    ensures |s + {x}| == |s| + 1
  {
  }

  /** Over distinct ids the count does not depend on autoflush. */
  lemma {:induction false} DistinctIdsCountOnce(rooms: Rooms, ids: seq<RoomId>, user: UserId)
    requires forall i, j :: 0 <= i < j < |ids| ==> ids[i] != ids[j]
    ensures DeleteSweep(rooms, ids, user, true) == DeleteSweep(rooms, ids, user, false)
    decreases |ids|
  {
    if ids != [] {
      var n := |ids| - 1;
      DistinctIdsCountOnce(rooms, ids[..n], user);
      DeleteSweepCounts(rooms, ids[..n], user, true);
      assert ids[n] !in ids[..n];
    }
  }

  /** A repeated id of one owned room: one room goes, the count says two without autoflush. */
  lemma {:induction false} RepeatedIdCountedTwice(rooms: Rooms, id: RoomId, user: UserId)
    requires id in rooms && rooms[id].userId == user
    ensures DeleteSweep(rooms, [id, id], user, true) == Sweep({id}, 1)
    ensures DeleteSweep(rooms, [id, id], user, false) == Sweep({id}, 2)
  {
    assert [id, id][..1] == [id];
    assert [id][..0] == [];
    assert DeleteSweep(rooms, [], user, true) == Sweep({}, 0);
    assert DeleteSweep(rooms, [id], user, true) == Sweep({id}, 1);
    assert DeleteSweep(rooms, [], user, false) == Sweep({}, 0);
    assert DeleteSweep(rooms, [id], user, false) == Sweep({id}, 1);
  }

  // ---------------------------------------------------------------------
  // The upload size limit
  // ---------------------------------------------------------------------

  /**
   * The read loop of `upload_pdf`: the body is read in 1 MiB chunks and the
   * running total is checked after every chunk. The verdict is the
   * cumulative limit: exactly 50 MiB passes, one byte more does not.
   */
  method MeasureUpload(size: nat) returns (r: Result<nat, HttpError>)
    ensures size <= MaxUploadBytes <==> r.Ok?
    ensures r.Ok? ==> r.value == size
    ensures r.Err? ==> r.error == TooLarge
  {
    var fileSize := 0;
    while fileSize < size
      invariant fileSize <= size && fileSize <= MaxUploadBytes
      decreases size - fileSize
    {
      var chunk := if size - fileSize < ChunkSize then size - fileSize else ChunkSize;
      fileSize := fileSize + chunk;
      if fileSize > MaxUploadBytes {
        return Err(TooLarge);
      }
    }
    return Ok(fileSize);
  }

  /** What happens after the file is written: the commit, then the indexing. */
  datatype StorageOutcome =
    | Stored
    | CommitFails(reason: string)
    | IndexingFails(reason: string)

  /** The answer of `initialize_learning`. */
  datatype LessonStart = LessonStart(roomId: RoomId, concept: string, keyword: string, phase: string)

  const KnowledgeCheck := "knowledge_check"

  // ---------------------------------------------------------------------
  // The store
  // ---------------------------------------------------------------------

  class Store {
    var rooms: Rooms
    var logs: Logs
    var pdfs: Pdfs
    var folders: Folders

    predicate Valid()
      reads this
    {
      Consistent(rooms, logs, pdfs, folders)
    }

    constructor(rooms0: Rooms, logs0: Logs, pdfs0: Pdfs, folders0: Folders)
      requires Consistent(rooms0, logs0, pdfs0, folders0)
      ensures Valid()
      ensures rooms == rooms0 && logs == logs0 && pdfs == pdfs0 && folders == folders0
    {
      rooms, logs, pdfs, folders := rooms0, logs0, pdfs0, folders0;
    }

    /** `get_messages` (backend/server.py:402-423). */
    method GetMessages(id: RoomId, user: UserId) returns (r: Result<seq<Message>, HttpError>)
      ensures RoomAccess(rooms, id, user).Err? ==> r == Err(RoomAccess(rooms, id, user).error)
      ensures RoomAccess(rooms, id, user).Ok? ==> r == Ok(if id in logs then logs[id] else [])
    {
      match RoomAccess(rooms, id, user)
      case Err(e) => return Err(e);
      case Ok(_) => return Ok(if id in logs then logs[id] else []);
    }

    /** `delete_room` (backend/server.py:430-451); the room's messages go with it. */
    method DeleteRoom(id: RoomId, user: UserId) returns (r: Result<(), HttpError>)
      requires Valid()
      modifies this
      ensures Valid()
      ensures old(RoomAccess(rooms, id, user)).Err? ==> r == Err(old(RoomAccess(rooms, id, user)).error)
      ensures r.Ok? <==> old(RoomAccess(rooms, id, user)).Ok?
      ensures r.Ok? ==> rooms == old(rooms) - {id} && logs == old(logs) - {id}
      ensures r.Err? ==> rooms == old(rooms) && logs == old(logs)
      ensures pdfs == old(pdfs) && folders == old(folders)
    {
      match RoomAccess(rooms, id, user)
      case Err(e) => return Err(e);
      case Ok(_) =>
        rooms := rooms - {id};
        logs := logs - {id};
        return Ok(());
    }

    /**
     * `delete_multiple_rooms` (backend/server.py:456-475). The deletions
     * are marked in the loop and carried out by the commit after it.
     */
    method DeleteMultipleRooms(ids: seq<RoomId>, user: UserId, autoflush: bool) returns (count: nat)
      requires Valid()
      modifies this
      ensures Valid()
      ensures count == DeleteSweep(old(rooms), ids, user, autoflush).count
      ensures rooms == old(rooms) - OwnedAmong(old(rooms), ids, user)
      ensures logs == old(logs) - OwnedAmong(old(rooms), ids, user)
      ensures pdfs == old(pdfs) && folders == old(folders)
    {
      var pending: set<RoomId> := {};
      count := 0;
      for i := 0 to |ids|
        invariant DeleteSweep(rooms, ids[..i], user, autoflush) == Sweep(pending, count)
      {
        assert ids[..i + 1][..i] == ids[..i];
        var id := ids[i];
        if Found(rooms, pending, id, autoflush) && rooms[id].userId == user {
          pending := pending + {id};
          count := count + 1;
        }
      }
      assert ids[..|ids|] == ids;
      DeleteSweepCounts(rooms, ids, user, autoflush);
      rooms := rooms - pending;
      logs := logs - pending;
    }

    /**
     * `delete_pdf` (backend/server.py:741-784): the caller's rooms linked
     * to the PDF are unlinked one by one, then the PDF row is deleted.
     * The answer is the number of rooms that were linked.
     */
    method DeletePdf(pdf: PdfId, user: UserId, now: Timestamp) returns (r: Result<nat, HttpError>)
      requires Valid()
      modifies this
      ensures Valid()
      ensures r.Err? <==> old(OwnedPdf(pdfs, pdf, user)).Err?
      ensures r.Err? ==> r.error == PdfNotFound && unchanged(this)
      ensures r.Ok? ==> r.value == |old(LinkedRooms(rooms, user, pdf))|
      ensures r.Ok? ==> rooms == UnlinkPdf(old(rooms), user, pdf, now) && pdfs == old(pdfs) - {pdf}
      ensures logs == old(logs) && folders == old(folders)
    {
      if OwnedPdf(pdfs, pdf, user).Err? {
        return Err(PdfNotFound);
      }
      var linked := LinkedRooms(rooms, user, pdf);
      ghost var before := rooms;
      var todo := linked;
      while todo != {}
        invariant todo <= linked
        invariant before == old(rooms) && pdfs == old(pdfs) && logs == old(logs) && folders == old(folders)
        invariant rooms.Keys == before.Keys
        invariant forall id :: id in before ==>
          rooms[id] == if id in linked - todo then UnlinkPdf(before, user, pdf, now)[id] else before[id]
        decreases |todo|
      {
        var id :| id in todo;
        rooms := rooms[id := Flush(rooms[id], rooms[id].(pdfId := None), now)];
        todo := todo - {id};
      }
      assert rooms == UnlinkPdf(before, user, pdf, now);
      UnlinkPdfLeavesNoLink(before, pdfs, user, pdf, now);
      pdfs := pdfs - {pdf};
      assert PdfFoldersResolve(pdfs, folders) by {
        forall p | p in pdfs && pdfs[p].folderId.Some?
          ensures pdfs[p].folderId.value in folders
        {
          assert p in old(pdfs);
        }
      }
      return Ok(|linked|);
    }

    /**
     * `move_pdf` (backend/server.py:786-816), with the empty folder id
     * read as the root.
     */
    method MovePdf(pdf: PdfId, user: UserId, target: Option<string>) returns (r: Result<PdfRow, HttpError>)
      requires Valid()
      modifies this
      ensures Valid()
      ensures old(OwnedPdf(pdfs, pdf, user)).Err? ==> r == Err(PdfNotFound)
      ensures old(OwnedPdf(pdfs, pdf, user)).Ok? && old(FolderTarget(folders, user, target, TargetFolderNotFound)).Err?
              ==> r == Err(TargetFolderNotFound)
      ensures r.Err? ==> unchanged(this)
      ensures r.Ok? ==> (old(OwnedPdf(pdfs, pdf, user)).Ok?
        && old(FolderTarget(folders, user, target, TargetFolderNotFound)).Ok?
        && r.value == old(pdfs)[pdf].(folderId := NormalizeFolder(target))
        && pdfs == old(pdfs)[pdf := r.value])
      ensures rooms == old(rooms) && logs == old(logs) && folders == old(folders)
    {
      if OwnedPdf(pdfs, pdf, user).Err? {
        return Err(PdfNotFound);
      }
      match FolderTarget(folders, user, target, TargetFolderNotFound)
      case Err(e) => return Err(e);
      case Ok(folder) =>
        var row := pdfs[pdf].(folderId := folder);
        pdfs := pdfs[pdf := row];
        return Ok(row);
    }

    /**
     * `delete_folder` (backend/server.py:849-873): the bulk update moves
     * every PDF of the folder to the root, then the folder row is deleted.
     */
    method DeleteFolder(folder: FolderId, user: UserId) returns (r: Result<(), HttpError>)
      requires Valid()
      modifies this
      ensures Valid()
      ensures r.Err? <==> !(folder in old(folders) && old(folders)[folder].userId == user)
      ensures r.Err? ==> r.error == FolderNotFound && unchanged(this)
      ensures r.Ok? ==> pdfs == Reroot(old(pdfs), folder) && folders == old(folders) - {folder}
      ensures rooms == old(rooms) && logs == old(logs)
    {
      if !(folder in folders && folders[folder].userId == user) {
        return Err(FolderNotFound);
      }
      RerootLeavesNoFolder(pdfs, folders, folder);
      pdfs := Reroot(pdfs, folder);
      folders := folders - {folder};
      return Ok(());
    }

    /**
     * `link_pdf_to_room` (backend/server.py:898-927): both the room and the
     * PDF must be the caller's; the room then points to the PDF.
     */
    method LinkPdfToRoom(id: RoomId, pdf: PdfId, user: UserId, now: Timestamp) returns (r: Result<(), HttpError>)
      requires Valid()
      modifies this
      ensures Valid()
      ensures old(OwnedRoom(rooms, id, user)).Err? ==> r == Err(RoomNotFound)
      ensures old(OwnedRoom(rooms, id, user)).Ok? && old(OwnedPdf(pdfs, pdf, user)).Err? ==> r == Err(PdfNotFound)
      ensures r.Err? ==> unchanged(this)
      ensures r.Ok? <==> old(OwnedRoom(rooms, id, user)).Ok? && old(OwnedPdf(pdfs, pdf, user)).Ok?
      ensures r.Ok? ==> rooms == old(rooms)[id := Flush(old(rooms)[id], old(rooms)[id].(pdfId := Some(pdf)), now)]
      ensures logs == old(logs) && pdfs == old(pdfs) && folders == old(folders)
    {
      if OwnedRoom(rooms, id, user).Err? {
        return Err(RoomNotFound);
      }
      if OwnedPdf(pdfs, pdf, user).Err? {
        return Err(PdfNotFound);
      }
      var row := rooms[id];
      rooms := rooms[id := Flush(row, row.(pdfId := Some(pdf)), now)];
      return Ok(());
    }

    /**
     * `initialize_learning` (backend/server.py:570-604): the raw concept is
     * stored and the phase becomes "knowledge_check"; the keyword, drawn
     * from the model's `reply`, is only reported back.
     */
    method InitializeLearning(id: RoomId, user: UserId, concept: string, reply: ConceptKeyword.KeywordReply, now: Timestamp)
      returns (r: Result<LessonStart, HttpError>)
      requires Valid()
      modifies this
      ensures Valid()
      ensures r.Err? <==> old(OwnedRoom(rooms, id, user)).Err?
      ensures r.Err? ==> r.error == RoomNotFound && unchanged(this)
      ensures r.Ok? ==> r.value == LessonStart(id, concept, ConceptKeyword.ExtractConceptKeyword(concept, reply), KnowledgeCheck)
      ensures r.Ok? ==> rooms == old(rooms)[id := Flush(old(rooms)[id],
                          old(rooms)[id].(currentConcept := Some(concept), learningPhase := Some(KnowledgeCheck)), now)]
      ensures logs == old(logs) && pdfs == old(pdfs) && folders == old(folders)
    {
      if OwnedRoom(rooms, id, user).Err? {
        return Err(RoomNotFound);
      }
      var row := rooms[id];
      rooms := rooms[id := Flush(row, row.(currentConcept := Some(concept), learningPhase := Some(KnowledgeCheck)), now)];
      var keyword := ConceptKeyword.ExtractConceptKeyword(concept, reply);
      return Ok(LessonStart(id, concept, keyword, KnowledgeCheck));
    }

    /**
     * `upload_pdf` (backend/server.py:607-692), with the empty folder id
     * read as the root. `size` is the length of the body, `stamp` the
     * rendered upload time, `id` the new row's uuid and `pageCount` what the
     * PDF reader found. A failing commit leaves no row; a failing indexing
     * step comes after the commit, so the row stays although the answer is
     * 500.
     */
    method UploadPdf(user: UserId, filename: string, target: Option<string>, size: nat, stamp: string,
                     id: PdfId, pageCount: Option<nat>, now: Timestamp, outcome: StorageOutcome)
      returns (r: Result<PdfRow, HttpError>)
      requires Valid() && id !in pdfs
      modifies this
      ensures Valid()
      ensures !EndsWith(filename, ".pdf") ==> r == Err(NotAPdf) && unchanged(this)
      ensures EndsWith(filename, ".pdf") && old(FolderTarget(folders, user, target, FolderNotFound)).Err?
              ==> r == Err(FolderNotFound) && unchanged(this)
      ensures r.Ok? <==> EndsWith(filename, ".pdf") && old(FolderTarget(folders, user, target, FolderNotFound)).Ok?
                         && size <= MaxUploadBytes && outcome == Stored
      ensures var row := PdfRow(user, NormalizeFolder(target), stamp + "_" + filename, filename, size, pageCount, now);
        (r.Ok? ==> r.value == row)
        && (pdfs == old(pdfs)[id := row] || pdfs == old(pdfs))
        && (pdfs == old(pdfs)[id := row] <==> r.Ok? || (r.Err? && outcome.IndexingFails? && size <= MaxUploadBytes
                                                       && EndsWith(filename, ".pdf")
                                                       && old(FolderTarget(folders, user, target, FolderNotFound)).Ok?))
      ensures (EndsWith(filename, ".pdf") && old(FolderTarget(folders, user, target, FolderNotFound)).Ok?
              && size > MaxUploadBytes)
              ==> r == Err(TooLarge) && unchanged(this)
      ensures (EndsWith(filename, ".pdf") && old(FolderTarget(folders, user, target, FolderNotFound)).Ok?
              && size <= MaxUploadBytes && outcome.CommitFails?)
              ==> r == Err(UploadFailed(outcome.reason)) && unchanged(this)
      ensures (EndsWith(filename, ".pdf") && old(FolderTarget(folders, user, target, FolderNotFound)).Ok?
              && size <= MaxUploadBytes && outcome.IndexingFails?)
              ==> r == Err(UploadFailed(outcome.reason))
      ensures rooms == old(rooms) && logs == old(logs) && folders == old(folders)
    {
      if !EndsWith(filename, ".pdf") {
        return Err(NotAPdf);
      }
      var folder;
      match FolderTarget(folders, user, target, FolderNotFound)
      case Err(e) => return Err(e);
      case Ok(f) => folder := f;
      var measured := MeasureUpload(size);
      if measured.Err? {
        return Err(measured.error);
      }
      var row := PdfRow(user, folder, stamp + "_" + filename, filename, measured.value, pageCount, now);
      match outcome
      case CommitFails(reason) =>
        return Err(UploadFailed(reason));
      case IndexingFails(reason) =>
        pdfs := pdfs[id := row];
        return Err(UploadFailed(reason));
      case Stored =>
        pdfs := pdfs[id := row];
        return Ok(row);
    }
  }
}
