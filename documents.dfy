/**
 * The project-document handlers (`addProjectDocument`, `getProjectDocuments`,
 * `deleteProjectDocument`): ordered validation gates, an upload to the
 * `project-documents` bucket followed by a metadata insert, a lookup by
 * project with found / not-found classification, and a delete that removes
 * the stored file best-effort before deleting the row.
 */
module ProjectDocuments {
  import opened Text
  import opened Json
  import opened Http

  // ---------------------------------------------------------------------------
  // Storage paths

  const BucketName: string := "project-documents"

  /** `projects/${project_id}/${file.originalname}`. */
  function UploadPath(projectId: Value, originalName: string): string {
    "projects/" + Display(projectId) + "/" + originalName
  }

  /** The `fullPath` the storage client reports for an upload: bucket, then path. */
  function FullPath(path: string): string {
    BucketName + "/" + path
  }

  /** The path handed to storage removal: with a `/`, everything up to and
      including the first `/` is dropped (`split("/").slice(1).join("/")`);
      without one, the stored value is used as it is. */
  function StripBucket(fileUrl: string): string {
    if '/' in fileUrl then Join(Split(fileUrl, '/')[1..], "/") else fileUrl
  }

  /** Stripping drops exactly the leading segment and its separator. */
  lemma StripLeadingSegment(b: string, p: string)
    requires '/' !in b
    ensures StripBucket(b + "/" + p) == p
  {
    var url := b + "/" + p;
    assert url == b + ['/'] + p;
    assert url[|b|] == '/';
    SplitAtFirst(b, '/', p);
    assert Split(url, '/')[1..] == Split(p, '/');
    JoinSplit(p, '/');
  }

  /** Stated on the stored value itself: the result is what follows its first `/`. */
  lemma StripIsAfterFirstSlash(fileUrl: string, i: nat)
    requires i < |fileUrl| && fileUrl[i] == '/' && '/' !in fileUrl[..i]
    ensures StripBucket(fileUrl) == fileUrl[i + 1..]
  {
    assert fileUrl == fileUrl[..i] + "/" + fileUrl[i + 1..];
    StripLeadingSegment(fileUrl[..i], fileUrl[i + 1..]);
  }

  /** A document stored by `addProjectDocument` is removed from the very path it
      was uploaded to. */
  lemma RemovalPathIsUploadPath(projectId: Value, originalName: string)
    ensures StripBucket(FullPath(UploadPath(projectId, originalName))) == UploadPath(projectId, originalName)
  {
    StripLeadingSegment(BucketName, UploadPath(projectId, originalName));
  }

  // ---------------------------------------------------------------------------
  // The storage bucket

  datatype StorageError = StorageError(message: string)

  datatype Upload = Uploaded(fullPath: string) | UploadFailed(error: StorageError)

  function StorageErrorResult(e: StorageError): Value {
    Or(Str(e.message), Obj([Field("message", Str(e.message))]))
  }

  /** The objects of the `project-documents` bucket, by path. */
  class Bucket {
    var objects: set<string>

    constructor ()
      ensures objects == {}
    {
      objects := {};
    }

    /** Upload without overwrite: an existing path, or a `fault` of the storage
        service, fails and stores nothing. */
    method Put(path: string, fault: Option<StorageError>) returns (r: Upload)
      modifies this
      ensures fault.Some? ==> r == UploadFailed(fault.value) && objects == old(objects)
      ensures fault.None? && path in old(objects) ==>
                r == UploadFailed(StorageError("The resource already exists")) && objects == old(objects)
      ensures fault.None? && path !in old(objects) ==>
                r == Uploaded(FullPath(path)) && objects == old(objects) + {path}
    {
      if fault.Some? {
        return UploadFailed(fault.value);
      }
      if path in objects {
        return UploadFailed(StorageError("The resource already exists"));
      }
      objects := objects + {path};
      r := Uploaded(FullPath(path));
    }

    /** Removal of one path; removing an absent path is not an error. */
    method Remove(path: string, fault: Option<StorageError>) returns (error: Option<StorageError>)
      modifies this
      ensures error == fault
      ensures objects == if fault.None? then old(objects) - {path} else old(objects)
    {
      if fault.None? {
        objects := objects - {path};
      }
      error := fault;
    }
  }

  // ---------------------------------------------------------------------------
  // The project_documents table

  datatype DocumentRow = DocumentRow(id: int, projectId: int, templateId: int, phase: Value,
                                     fileUrl: string, uploadedAt: int, documentName: string)

  function RowValue(r: DocumentRow): Value {
    Obj([Field("id", Num(r.id)), Field("project_id", Num(r.projectId)),
         Field("template_id", Num(r.templateId)), Field("phase", r.phase),
         Field("file_url", Str(r.fileUrl)), Field("uploaded_at", Num(r.uploadedAt)),
         Field("document_name", Str(r.documentName))])
  }

  function RowValues(rs: seq<DocumentRow>): (vs: seq<Value>)
    ensures |vs| == |rs| && forall i | 0 <= i < |rs| :: vs[i] == RowValue(rs[i])
  {
    seq(|rs|, i requires 0 <= i < |rs| => RowValue(rs[i]))
  }

  /** `WHERE project_id = $1`: the rows of one project, in table order. */
  function ProjectRows(rows: seq<DocumentRow>, projectId: int): (rs: seq<DocumentRow>)
    ensures forall r | r in rs :: r in rows && r.projectId == projectId
    ensures forall r | r in rows && r.projectId == projectId :: r in rs
    ensures |rs| <= |rows|
  {
    if |rows| == 0 then []
    else if rows[0].projectId == projectId then [rows[0]] + ProjectRows(rows[1..], projectId)
    else ProjectRows(rows[1..], projectId)
  }

  /** `WHERE id = $1 AND project_id = $2`. */
  function DocumentRows(rows: seq<DocumentRow>, id: int, projectId: int): (rs: seq<DocumentRow>)
    ensures forall r | r in rs :: r in rows && r.id == id && r.projectId == projectId
    ensures forall r | r in rows && r.id == id && r.projectId == projectId :: r in rs
  {
    if |rows| == 0 then []
    else if rows[0].id == id && rows[0].projectId == projectId then [rows[0]] + DocumentRows(rows[1..], id, projectId)
    else DocumentRows(rows[1..], id, projectId)
  }

  /** The table after `DELETE ... WHERE id = $1 AND project_id = $2`. */
  function WithoutDocument(rows: seq<DocumentRow>, id: int, projectId: int): (rs: seq<DocumentRow>)
    ensures forall r | r in rs :: r in rows && !(r.id == id && r.projectId == projectId)
    ensures forall r | r in rows && !(r.id == id && r.projectId == projectId) :: r in rs
    ensures |rs| + |DocumentRows(rows, id, projectId)| == |rows|
  {
    if |rows| == 0 then []
    else if rows[0].id == id && rows[0].projectId == projectId then WithoutDocument(rows[1..], id, projectId)
    else [rows[0]] + WithoutDocument(rows[1..], id, projectId)
  }

  const InvalidInteger: string := "22P02"

  function InvalidIntegerError(v: Value): DbError {
    DbError(InvalidInteger, "invalid input syntax for type integer: \"" + Display(v) + "\"", Null)
  }

  datatype Selection = Selected(rows: seq<DocumentRow>) | SelectFailed(error: DbError)

  class DocumentTable {
    var rows: seq<DocumentRow>
    var nextId: int

    /** Row ids are distinct and below the next id the sequence hands out. */
    ghost predicate Valid()
      reads this
    {
      (forall i | 0 <= i < |rows| :: rows[i].id < nextId) && DistinctIds(rows)
    }

    constructor ()
      ensures Valid() && rows == []
    {
      rows := [];
      nextId := 1;
    }

    /** `INSERT INTO project_documents ... RETURNING *`. The two ids must denote
        integers; `fault` covers the other server failures (a missing project or
        template, a lost connection). */
    method Insert(projectId: Value, templateId: Value, phase: Value, fileUrl: string,
                  uploadedAt: int, documentName: string, fault: Option<DbError>)
      returns (r: Selection)
      requires Valid()
      modifies this
      ensures Valid()
      ensures fault.Some? ==> r == SelectFailed(fault.value) && rows == old(rows)
      ensures fault.None? && IntegerKey(projectId).None? ==>
                r == SelectFailed(InvalidIntegerError(projectId)) && rows == old(rows)
      ensures fault.None? && IntegerKey(projectId).Some? && IntegerKey(templateId).None? ==>
                r == SelectFailed(InvalidIntegerError(templateId)) && rows == old(rows)
      ensures fault.None? && IntegerKey(projectId).Some? && IntegerKey(templateId).Some? ==>
                var row := DocumentRow(old(nextId), IntegerKey(projectId).value, IntegerKey(templateId).value,
                                       phase, fileUrl, uploadedAt, documentName);
                r == Selected([row]) && rows == old(rows) + [row]
    {
      if fault.Some? {
        return SelectFailed(fault.value);
      }
      var pk, tk := IntegerKey(projectId), IntegerKey(templateId);
      if pk.None? {
        return SelectFailed(InvalidIntegerError(projectId));
      }
      if tk.None? {
        return SelectFailed(InvalidIntegerError(templateId));
      }
      var row := DocumentRow(nextId, pk.value, tk.value, phase, fileUrl, uploadedAt, documentName);
      rows := rows + [row];
      nextId := nextId + 1;
      r := Selected([row]);
    }

    /** `DELETE FROM project_documents WHERE id = $1 AND project_id = $2 RETURNING id`. */
    method Delete(id: int, projectId: int, fault: Option<DbError>) returns (r: Selection)
      requires Valid()
      modifies this
      ensures Valid() && nextId == old(nextId)
      ensures fault.Some? ==> r == SelectFailed(fault.value) && rows == old(rows)
      ensures fault.None? ==> r == Selected(DocumentRows(old(rows), id, projectId)) &&
                              rows == WithoutDocument(old(rows), id, projectId)
    {
      if fault.Some? {
        return SelectFailed(fault.value);
      }
      var gone := DocumentRows(rows, id, projectId);
      var kept := WithoutDocument(rows, id, projectId);
      KeptRowsDistinct(rows, id, projectId);
      rows := kept;
      r := Selected(gone);
    }
  }

  ghost predicate DistinctIds(rows: seq<DocumentRow>) {
    forall i, j | 0 <= i < j < |rows| :: rows[i].id != rows[j].id
  }

  /** With distinct ids, no later row shares the first row's id. */
  lemma FirstIdUnique(rows: seq<DocumentRow>)
    requires |rows| > 0 && DistinctIds(rows)
    ensures forall r | r in rows[1..] :: r.id != rows[0].id
  {
    forall r | r in rows[1..] ensures r.id != rows[0].id {
      var k :| 0 <= k < |rows[1..]| && rows[1..][k] == r;
      assert rows[k + 1] == r;
    }
  }

  /** Deleting rows keeps the remaining ids distinct. */
  lemma {:induction false} KeptRowsDistinct(rows: seq<DocumentRow>, id: int, projectId: int)
    requires DistinctIds(rows)
    ensures DistinctIds(WithoutDocument(rows, id, projectId))
  {
    if |rows| > 0 {
      assert DistinctIds(rows[1..]);
      KeptRowsDistinct(rows[1..], id, projectId);
      var rest := WithoutDocument(rows[1..], id, projectId);
      if !(rows[0].id == id && rows[0].projectId == projectId) {
        FirstIdUnique(rows);
        assert WithoutDocument(rows, id, projectId) == [rows[0]] + rest;
        ConsDistinct(rows[0], rest);
      }
    }
  }

  /** A row whose id no other row has can be put in front. */
  lemma ConsDistinct(r: DocumentRow, rest: seq<DocumentRow>)
    requires DistinctIds(rest) && forall x | x in rest :: x.id != r.id
    ensures DistinctIds([r] + rest)
  {
    var kept := [r] + rest;
    forall i, j | 0 <= i < j < |kept| ensures kept[i].id != kept[j].id {
      assert kept[j] == rest[j - 1] && rest[j - 1] in rest;
      if i > 0 {
        assert kept[i] == rest[i - 1];
      }
    }
  }

  // ---------------------------------------------------------------------------
  // addProjectDocument

  datatype UploadedFile = UploadedFile(originalName: string)

  /** The two gates before any effect: the file first, then the three fields. */
  function AddGate(body: seq<Field>, file: Option<UploadedFile>): (r: Option<Response>)
    ensures file.None? ==> r == Some(Failure(400, "No file uploaded.", Undefined))
    ensures r.None? <==>
              file.Some? && Truthy(Lookup(body, "project_id")) &&
              Truthy(Lookup(body, "template_id")) && Truthy(Lookup(body, "phase"))
    ensures r.Some? ==> r.value.code == 400
  {
    if file.None? then Some(Failure(400, "No file uploaded.", Undefined))
    else if !Truthy(Lookup(body, "project_id")) || !Truthy(Lookup(body, "template_id")) ||
            !Truthy(Lookup(body, "phase"))
    then Some(Failure(400, "Project ID, Template ID, and Phase are required.", Undefined))
    else None
  }

  /** `addProjectDocument`. `now` is the clock reading for `uploaded_at`; the
      faults stand for failures of the storage service and of the database. */
  method AddProjectDocument(db: DocumentTable, bucket: Bucket, body: seq<Field>,
                            file: Option<UploadedFile>, now: int,
                            uploadFault: Option<StorageError>, dbFault: Option<DbError>)
    returns (response: Response)
    requires db.Valid()
    modifies db, bucket
    ensures db.Valid()
    ensures AddGate(body, file).Some? ==>
              response == AddGate(body, file).value &&
              db.rows == old(db.rows) && bucket.objects == old(bucket.objects)
    ensures AddGate(body, file).None? ==>
              var path := UploadPath(Lookup(body, "project_id"), file.value.originalName);
              if uploadFault.Some? || path in old(bucket.objects) then
                response.code == 500 && response.message == "Failed to upload document" &&
                db.rows == old(db.rows) && bucket.objects == old(bucket.objects)
              else
                bucket.objects == old(bucket.objects) + {path} &&
                (file.value.originalName == "" ==>
                   response == Failure(400, "Missing required document data.", Undefined) &&
                   db.rows == old(db.rows)) &&
                (file.value.originalName != "" ==>
                   (response.code == 201 <==>
                      (dbFault.None? && IntegerKey(Lookup(body, "project_id")).Some? &&
                       IntegerKey(Lookup(body, "template_id")).Some?)) &&
                   (response.code == 201 ==>
                      |db.rows| > 0 &&
                      response.result == RowValue(db.rows[|db.rows| - 1]) &&
                      db.rows == old(db.rows) + [db.rows[|db.rows| - 1]] &&
                      db.rows[|db.rows| - 1].fileUrl == FullPath(path) &&
                      db.rows[|db.rows| - 1].documentName == file.value.originalName &&
                      db.rows[|db.rows| - 1].phase == Lookup(body, "phase") &&
                      db.rows[|db.rows| - 1].uploadedAt == now) &&
                   (response.code != 201 ==> response.code == 500 && db.rows == old(db.rows)))
  {
    if file.None? {
      return Failure(400, "No file uploaded.", Undefined);
    }
    var projectId, templateId, phase :=
      Lookup(body, "project_id"), Lookup(body, "template_id"), Lookup(body, "phase");
    if !Truthy(projectId) || !Truthy(templateId) || !Truthy(phase) {
      return Failure(400, "Project ID, Template ID, and Phase are required.", Undefined);
    }
    var path := UploadPath(projectId, file.value.originalName);
    var upload := bucket.Put(path, uploadFault);
    if upload.UploadFailed? {
      return Failure(500, "Failed to upload document", StorageErrorResult(upload.error));
    }
    assert upload.fullPath == FullPath(path) && |upload.fullPath| > 0;
    response := RecordDocument(db, projectId, templateId, phase, upload.fullPath, now,
                               file.value.originalName, dbFault);
  }

  /** The second half of `addProjectDocument`: the re-check of the record, the
      insert and its answer. */
  method RecordDocument(db: DocumentTable, projectId: Value, templateId: Value, phase: Value,
                        fileUrl: string, now: int, documentName: string, dbFault: Option<DbError>)
    returns (response: Response)
    requires db.Valid()
    modifies db
    ensures db.Valid()
    ensures !Truthy(projectId) || !Truthy(templateId) || fileUrl == "" || !Truthy(phase) || documentName == "" ==>
              response == Failure(400, "Missing required document data.", Undefined) && db.rows == old(db.rows)
    ensures Truthy(projectId) && Truthy(templateId) && fileUrl != "" && Truthy(phase) && documentName != "" ==>
              (response.code == 201 <==>
                 (dbFault.None? && IntegerKey(projectId).Some? && IntegerKey(templateId).Some?)) &&
              (response.code == 201 ==>
                 |db.rows| > 0 &&
                 response.result == RowValue(db.rows[|db.rows| - 1]) &&
                 db.rows == old(db.rows) + [db.rows[|db.rows| - 1]] &&
                 db.rows[|db.rows| - 1].fileUrl == fileUrl &&
                 db.rows[|db.rows| - 1].documentName == documentName &&
                 db.rows[|db.rows| - 1].phase == phase &&
                 db.rows[|db.rows| - 1].uploadedAt == now) &&
              (response.code != 201 ==> response.code == 500 && db.rows == old(db.rows))
  {
    if !Truthy(projectId) || !Truthy(templateId) || fileUrl == "" || !Truthy(phase) || documentName == "" {
      return Failure(400, "Missing required document data.", Undefined);
    }
    var inserted := db.Insert(projectId, templateId, phase, fileUrl, now, documentName, dbFault);
    if inserted.SelectFailed? {
      return Failure(500, "Error uploading document", MessageOrError(inserted.error));
    }
    response := Success(201, "Document uploaded successfully", RowValue(inserted.rows[0]));
  }

  // ---------------------------------------------------------------------------
  // getProjectDocuments

  /** `getProjectDocuments`: only reads the table. */
  method GetProjectDocuments(db: DocumentTable, body: Value, fault: Option<DbError>)
    returns (response: Response)
    ensures var projectId := Get(body, "project_id");
            !Truthy(body) || !Truthy(projectId) ==>
              response == Failure(400, "Required field missing: project_id is required", Null)
    ensures var projectId := Get(body, "project_id");
            Truthy(body) && Truthy(projectId) && !IsNumeric(projectId) ==>
              response == Failure(400, "Invalid project_id format: must be a number", Null)
    ensures var projectId := Get(body, "project_id");
            Truthy(body) && Truthy(projectId) && IsNumeric(projectId) ==>
              if fault.Some? || IntegerKey(projectId).None? then
                response.code == 500 && response.message == "Error retrieving project documents"
              else
                var found := ProjectRows(db.rows, IntegerKey(projectId).value);
                (response.code == 404 <==> found == []) &&
                (response.code == 404 ==>
                   response.message == "No documents found for project with id " + Display(projectId)) &&
                (response.code != 404 ==> response == Success(200, "Documents retrieved successfully",
                                                              Arr(RowValues(found))))
  {
    var projectId := Get(body, "project_id");
    if !Truthy(body) || !Truthy(projectId) {
      return Failure(400, "Required field missing: project_id is required", Null);
    }
    if !IsNumeric(projectId) {
      return Failure(400, "Invalid project_id format: must be a number", Null);
    }
    if fault.Some? {
      return Failure(500, "Error retrieving project documents", MessageOrError(fault.value));
    }
    var key := IntegerKey(projectId);
    if key.None? {
      return Failure(500, "Error retrieving project documents",
                     MessageOrError(InvalidIntegerError(projectId)));
    }
    var found := ProjectRows(db.rows, key.value);
    if |found| == 0 {
      return Failure(404, "No documents found for project with id " + Display(projectId), Null);
    }
    response := Success(200, "Documents retrieved successfully", Arr(RowValues(found)));
  }

  // ---------------------------------------------------------------------------
  // deleteProjectDocument

  /** `deleteProjectDocument`: look the document up, remove its file best-effort,
      then delete the row. One fault per step of the sequence. */
  method DeleteProjectDocument(db: DocumentTable, bucket: Bucket, body: seq<Field>,
                               selectFault: Option<DbError>, removeFault: Option<StorageError>,
                               deleteFault: Option<DbError>)
    returns (response: Response, removed: Option<string>)
    requires db.Valid()
    modifies db, bucket
    ensures db.Valid()
    ensures var projectId, documentId := Lookup(body, "project_id"), Lookup(body, "document_id");
            !Truthy(projectId) || !Truthy(documentId) ==>
              response == Failure(400, "Project ID and Document ID are required.", Undefined) &&
              removed == None && db.rows == old(db.rows) && bucket.objects == old(bucket.objects)
    ensures var projectId, documentId := Lookup(body, "project_id"), Lookup(body, "document_id");
            Truthy(projectId) && Truthy(documentId) &&
            (selectFault.Some? || IntegerKey(projectId).None? || IntegerKey(documentId).None?) ==>
              response.code == 500 && removed == None &&
              db.rows == old(db.rows) && bucket.objects == old(bucket.objects)
    ensures var projectId, documentId := Lookup(body, "project_id"), Lookup(body, "document_id");
            Truthy(projectId) && Truthy(documentId) && selectFault.None? &&
            IntegerKey(projectId).Some? && IntegerKey(documentId).Some? ==>
              var pk, dk := IntegerKey(projectId).value, IntegerKey(documentId).value;
              var matches := DocumentRows(old(db.rows), dk, pk);
              if matches == [] then
                response == Failure(404, "Document not found", Undefined) &&
                removed == None && db.rows == old(db.rows) && bucket.objects == old(bucket.objects)
              else
                (removed == if matches[0].fileUrl != "" then Some(StripBucket(matches[0].fileUrl)) else None) &&
                (bucket.objects == if removed.Some? && removeFault.None? then old(bucket.objects) - {removed.value}
                                   else old(bucket.objects)) &&
                (deleteFault.Some? ==> response.code == 500 && db.rows == old(db.rows)) &&
                (deleteFault.None? ==>
                   response == Success(200, "Document deleted successfully",
                                       Obj([Field("id", documentId)])) &&
                   db.rows == WithoutDocument(old(db.rows), dk, pk))
  {
    var projectId, documentId := Lookup(body, "project_id"), Lookup(body, "document_id");
    removed := None;
    if !Truthy(projectId) || !Truthy(documentId) {
      return Failure(400, "Project ID and Document ID are required.", Undefined), removed;
    }
    if selectFault.Some? {
      return Failure(500, "Error deleting document", MessageOrError(selectFault.value)), removed;
    }
    var pk, dk := IntegerKey(projectId), IntegerKey(documentId);
    if dk.None? {
      return Failure(500, "Error deleting document", MessageOrError(InvalidIntegerError(documentId))), removed;
    }
    if pk.None? {
      return Failure(500, "Error deleting document", MessageOrError(InvalidIntegerError(projectId))), removed;
    }
    var matches := DocumentRows(db.rows, dk.value, pk.value);
    if |matches| == 0 {
      return Failure(404, "Document not found", Undefined), removed;
    }
    var document := matches[0];
    if document.fileUrl != "" {
      var filePath := StripBucket(document.fileUrl);
      var error := bucket.Remove(filePath, removeFault);
      removed := Some(filePath);
      // a removal error is logged and the row delete goes ahead
    }
    var deleted := db.Delete(dk.value, pk.value, deleteFault);
    if deleted.SelectFailed? {
      return Failure(500, "Error deleting document", MessageOrError(deleted.error)), removed;
    }
    if |deleted.rows| == 0 {
      return Failure(500, "Failed to delete document from database", Undefined), removed;
    }
    response := Success(200, "Document deleted successfully", Obj([Field("id", documentId)]));
  }
}
