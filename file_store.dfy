/**
 * The file lifecycle of src/server.ts against an in-memory store: the
 * repository's tables become maps in a class, and the disk becomes the set of
 * file paths present. Each handler is a method that changes the store step by
 * step as the handler does, and returns the outcome it reports.
 */
module FileStore {
  import opened Wrappers
  import opened Text
  import opened StoragePath
  import opened StoredName

  datatype Client = Client(id: nat, name: JsString, details: Option<JsString>)

  datatype Location = Location(id: nat, name: JsString, address: Option<JsString>, details: Option<JsString>)

  datatype ServiceType = ServiceType(id: nat, name: JsString)

  /** A File row; the creation and update timestamps and the unused hash are left out. */
  datatype FileRecord = FileRecord(
    id: nat,
    originalName: JsString,
    storedName: JsString,
    mimeType: JsString,
    size: nat,
    path: Path,
    clientId: nat,
    locationId: nat,
    serviceTypeId: nat,
    periodicity: Option<JsString>,
    equipmentName: Option<JsString>,
    taskId: Option<JsString>,
    serviceDate: Option<int>,
    uploaderId: Option<JsString>,
    extraMetadata: Option<JsString>)

  /** What the upload middleware hands the handler as `req.file`. */
  datatype UploadedFile = UploadedFile(
    originalName: JsString,
    storedName: JsString,
    mimeType: JsString,
    size: nat,
    path: Path)

  /** The form fields of an upload request; absent ones are `None`. */
  datatype UploadBody = UploadBody(
    clientName: Option<JsString>,
    locationName: Option<JsString>,
    serviceTypeName: Option<JsString>,
    periodicity: Option<JsString>,
    equipmentName: Option<JsString>,
    taskId: Option<JsString>,
    serviceDate: Option<int>,
    uploaderId: Option<JsString>,
    extraMetadata: Option<JsString>,
    clientDetails: Option<JsString>,
    locationAddress: Option<JsString>,
    locationDetails: Option<JsString>)

  /** The messages the handlers answer with; `MessageText` gives their wording. */
  datatype Message =
    | FileUploaded
    | NoFile
    | MissingNames
    | ServiceTypeNotFound(name: JsString)
    | InvalidJson
    | PathFailure(error: PathError)
    | FileNotFound
    | PhysicalFileNotFound
    | FileDeleted
    | PartialDelete
    | ServerFailure

  function MessageText(m: Message): (text: JsString)
    ensures m.ServiceTypeNotFound? ==> |text| > 18 + |m.name| && text[18..18 + |m.name|] == m.name
  {
    match m
    case FileUploaded => Lit("Archivo subido exitosamente.")
    case NoFile => Lit("No se proporcionó ningún archivo (chequeo post-multer).")
    case MissingNames => Lit("Faltan metadatos requeridos: clienteNombre, lugarNombre, tipoServicioNombre.")
    case ServiceTypeNotFound(name) => Lit("Tipo de servicio '") + name + Lit("' no encontrado.")
    case InvalidJson => Lit("metadatosAdicionales debe ser un JSON válido")
    case PathFailure(e) => PathErrorMessage(e)
    case FileNotFound => Lit("Archivo no encontrado.")
    case PhysicalFileNotFound => Lit("Archivo no encontrado en el almacenamiento físico.")
    case FileDeleted => Lit("Archivo eliminado exitosamente.")
    case PartialDelete => Lit("Archivo eliminado de la base de datos. ") + Lit("Error al eliminar del sistema de archivos.")
    case ServerFailure => Lit("Ocurrió un error en el servidor.")
  }

  /** The two 404s of a download, and the two 200s of a delete, are worded differently. */
  lemma MessagesTellOutcomesApart()
    ensures MessageText(FileNotFound) != MessageText(PhysicalFileNotFound)
    ensures MessageText(FileDeleted) != MessageText(PartialDelete)
  {
    assert |MessageText(FileNotFound)| == 22 && |MessageText(PhysicalFileNotFound)| == 50;
    assert |MessageText(FileDeleted)| == 31 && |MessageText(PartialDelete)| == 81;
  }

  /** 201 with the new row, 400 with a message, or an error passed on to the global handler with its own message. */
  datatype UploadResult =
    | Created(file: FileRecord)
    | BadRequest(message: Message)
    | ServerError(message: Message)

  /** The result of `fs.unlink`: done, ENOENT, or any other error. */
  datatype UnlinkOutcome = Removed | AlreadyAbsent | Failed

  datatype DeleteResult = DeleteNotFound | Deleted(fileId: nat, outcome: UnlinkOutcome)

  datatype DownloadResult = RecordNotFound | PhysicalFileMissing | Send(path: Path, downloadName: JsString)

  /** A response's status and JSON message; a download's 200 carries the file instead. */
  datatype Response = Response(status: int, message: Option<Message>)

  /**
   * The response to an upload: 201 with the success message, 400 with the
   * handler's message, or the global handler's 500 with its generic message.
   */
  function UploadResponse(r: UploadResult): (resp: Response)
    ensures resp.status == 201 <==> r.Created?
    ensures resp.status == 400 <==> r.BadRequest?
    ensures resp.status == 500 <==> r.ServerError?
    ensures r.Created? ==> resp.message == Some(FileUploaded)
    ensures r.BadRequest? ==> resp.message == Some(r.message)
    ensures r.ServerError? ==> resp.message == Some(ServerFailure)
  {
    match r
    case Created(_) => Response(201, Some(FileUploaded))
    case BadRequest(m) => Response(400, Some(m))
    case ServerError(_) => Response(500, Some(ServerFailure))
  }

  /** The fields of the request body the storage callback hands to the path builder. */
  function PathMetadataOf(body: UploadBody): (m: PathMetadata)
    ensures HasRequiredNames(m) <==> HasNames(body)
  {
    PathMetadata(body.clientName, body.locationName, body.serviceTypeName,
                 body.periodicity, body.equipmentName, body.taskId)
  }

  predicate HasNames(body: UploadBody) {
    Truthy(body.clientName) && Truthy(body.locationName) && Truthy(body.serviceTypeName)
  }

  /** The extra metadata is absent (falsy) or parses as JSON; `isJson` stands for `JSON.parse` succeeding. */
  predicate MetadataParses(body: UploadBody, isJson: JsString -> bool) {
    !Truthy(body.extraMetadata) || isJson(body.extraMetadata.value)
  }

  /** The row the handler writes for an upload, given the ids it resolved. */
  function NewRecord(id: nat, f: UploadedFile, body: UploadBody, clientId: nat, locationId: nat, serviceTypeId: nat)
    : (r: FileRecord)
    ensures r.id == id
    ensures r.originalName == f.originalName && r.storedName == f.storedName && r.path == f.path
    ensures r.mimeType == f.mimeType && r.size == f.size
    ensures r.clientId == clientId && r.locationId == locationId && r.serviceTypeId == serviceTypeId
    ensures r.periodicity == body.periodicity && r.equipmentName == body.equipmentName && r.taskId == body.taskId
    ensures r.serviceDate == body.serviceDate && r.uploaderId == body.uploaderId
    ensures r.extraMetadata.None? <==> !Truthy(body.extraMetadata)
    ensures r.extraMetadata.Some? ==> r.extraMetadata == body.extraMetadata
  {
    FileRecord(id, f.originalName, f.storedName, f.mimeType, f.size, f.path,
               clientId, locationId, serviceTypeId,
               body.periodicity, body.equipmentName, body.taskId, body.serviceDate, body.uploaderId,
               if Truthy(body.extraMetadata) then body.extraMetadata else None)
  }

  /**
   * The response of the delete handler: 404 without a record, otherwise 200,
   * with the plain success message unless removing the bytes really failed.
   */
  function DeleteResponse(r: DeleteResult): (resp: Response)
    ensures r.DeleteNotFound? ==> resp == Response(404, Some(FileNotFound))
    ensures r.Deleted? ==> resp.status == 200
    ensures r.Deleted? ==> (resp.message == Some(FileDeleted) <==> r.outcome != Failed)
    ensures r.Deleted? && r.outcome == Failed ==> resp.message == Some(PartialDelete)
  {
    match r
    case DeleteNotFound => Response(404, Some(FileNotFound))
    case Deleted(_, outcome) =>
      if outcome == Failed then Response(200, Some(PartialDelete)) else Response(200, Some(FileDeleted))
  }

  /** The download handler's decision, from the record lookup and the `fs.access` result. */
  function DownloadDecision(record: Option<FileRecord>, accessible: bool): (d: DownloadResult)
    ensures d == RecordNotFound <==> record.None?
    ensures d == PhysicalFileMissing <==> record.Some? && !accessible
    ensures d.Send? ==> d.path == record.value.path && d.downloadName == record.value.originalName
  {
    if record.None? then RecordNotFound
    else if !accessible then PhysicalFileMissing
    else Send(record.value.path, record.value.originalName)
  }

  /** 404 with one of two messages, or 200 whose body is the file itself. */
  function DownloadResponse(d: DownloadResult): (resp: Response)
    ensures d == RecordNotFound ==> resp == Response(404, Some(FileNotFound))
    ensures d == PhysicalFileMissing ==> resp == Response(404, Some(PhysicalFileNotFound))
    ensures d.Send? ==> resp == Response(200, None)
  {
    match d
    case RecordNotFound => Response(404, Some(FileNotFound))
    case PhysicalFileMissing => Response(404, Some(PhysicalFileNotFound))
    case Send(_, _) => Response(200, None)
  }

  /** The row's client, location and service type exist in the given tables. */
  ghost predicate References(f: FileRecord, clients: map<JsString, Client>, locations: map<JsString, Location>,
                             serviceTypes: map<JsString, ServiceType>)
  {
    && (exists n :: n in clients && clients[n].id == f.clientId)
    && (exists n :: n in locations && locations[n].id == f.locationId)
    && (exists n :: n in serviceTypes && serviceTypes[n].id == f.serviceTypeId)
  }

  /** Adding rows to the tables keeps every reference valid. */
  lemma ReferencesGrow(f: FileRecord,
                       clients: map<JsString, Client>, clients': map<JsString, Client>,
                       locations: map<JsString, Location>, locations': map<JsString, Location>,
                       serviceTypes: map<JsString, ServiceType>)
    requires References(f, clients, locations, serviceTypes)
    requires forall n :: n in clients ==> n in clients' && clients'[n] == clients[n]
    requires forall n :: n in locations ==> n in locations' && locations'[n] == locations[n]
    ensures References(f, clients', locations', serviceTypes)
  {
    var c :| c in clients && clients[c].id == f.clientId;
    assert c in clients' && clients'[c].id == f.clientId;
    var l :| l in locations && locations[l].id == f.locationId;
    assert l in locations' && locations'[l].id == f.locationId;
  }

  /** Each table is keyed by its unique column, ids are below the next id, and every File row references existing rows. */
  ghost predicate TablesValid(clients: map<JsString, Client>, locations: map<JsString, Location>,
                              serviceTypes: map<JsString, ServiceType>, files: map<nat, FileRecord>,
                              nextClientId: nat, nextLocationId: nat, nextFileId: nat)
  {
    && (forall n :: n in clients ==> clients[n].name == n && clients[n].id < nextClientId)
    && (forall n :: n in locations ==> locations[n].name == n && locations[n].id < nextLocationId)
    && (forall n :: n in serviceTypes ==> serviceTypes[n].name == n)
    && (forall id :: id in files ==> files[id].id == id && id < nextFileId)
    && (forall id :: id in files ==> References(files[id], clients, locations, serviceTypes))
  }

  class Store {
    var clients: map<JsString, Client>
    var locations: map<JsString, Location>
    var serviceTypes: map<JsString, ServiceType>
    var files: map<nat, FileRecord>
    var disk: set<Path>
    var nextClientId: nat
    var nextLocationId: nat
    var nextFileId: nat

    /** The store invariant, on the current tables. */
    ghost predicate Valid()
      reads this`clients, this`locations, this`serviceTypes, this`files,
            this`nextClientId, this`nextLocationId, this`nextFileId
    {
      TablesValid(clients, locations, serviceTypes, files, nextClientId, nextLocationId, nextFileId)
    }

    /** An empty store whose service types were seeded beforehand. */
    constructor (seeded: map<JsString, ServiceType>)
      requires forall n :: n in seeded ==> seeded[n].name == n
      ensures Valid()
      ensures clients == map[] && locations == map[] && files == map[] && disk == {}
      ensures serviceTypes == seeded
      ensures nextClientId == 1 && nextLocationId == 1 && nextFileId == 1
    {
      clients, locations, serviceTypes, files, disk := map[], map[], seeded, map[], {};
      nextClientId, nextLocationId, nextFileId := 1, 1, 1;
    }

    /** `fs.unlink(p)`: `fault` stands for an error other than ENOENT (permissions, I/O). */
    method Unlink(p: Path, fault: bool) returns (o: UnlinkOutcome)
      modifies this`disk
      ensures o == Failed <==> fault
      ensures o == AlreadyAbsent <==> !fault && p !in old(disk)
      ensures disk == if o == Removed then old(disk) - {p} else old(disk)
      ensures o != Failed ==> p !in disk
    {
      if fault {
        o := Failed;
      } else if p in disk {
        disk := disk - {p};
        o := Removed;
      } else {
        o := AlreadyAbsent;
      }
    }

    /** `prisma.client.findUnique` by name, then `create` when absent. */
    method FindOrCreateClient(name: JsString, details: Option<JsString>) returns (c: Client)
      requires Valid()
      modifies this`clients, this`nextClientId
      ensures Valid()
      ensures name in clients && c == clients[name]
      ensures name in old(clients) ==>
        c == old(clients)[name] && clients == old(clients) && nextClientId == old(nextClientId)
      ensures name !in old(clients) ==>
        && c == Client(old(nextClientId), name, details)
        && clients == old(clients)[name := c]
        && nextClientId == old(nextClientId) + 1
    {
      if name in clients {
        c := clients[name];
      } else {
        c := Client(nextClientId, name, details);
        clients := clients[name := c];
        nextClientId := nextClientId + 1;
        forall id | id in files
          ensures References(files[id], clients, locations, serviceTypes)
        {
          ReferencesGrow(files[id], old(clients), clients, locations, locations, serviceTypes);
        }
      }
    }

    /** `prisma.location.findUnique` by name, then `create` when absent. */
    method FindOrCreateLocation(name: JsString, address: Option<JsString>, details: Option<JsString>) returns (l: Location)
      requires Valid()
      modifies this`locations, this`nextLocationId
      ensures Valid()
      ensures name in locations && l == locations[name]
      ensures name in old(locations) ==>
        l == old(locations)[name] && locations == old(locations) && nextLocationId == old(nextLocationId)
      ensures name !in old(locations) ==>
        && l == Location(old(nextLocationId), name, address, details)
        && locations == old(locations)[name := l]
        && nextLocationId == old(nextLocationId) + 1
    {
      if name in locations {
        l := locations[name];
      } else {
        l := Location(nextLocationId, name, address, details);
        locations := locations[name := l];
        nextLocationId := nextLocationId + 1;
        forall id | id in files
          ensures References(files[id], clients, locations, serviceTypes)
        {
          ReferencesGrow(files[id], clients, clients, old(locations), locations, serviceTypes);
        }
      }
    }

    /**
     * The upload middleware's storage callbacks and write: the directory from
     * `generateStoragePath`, the stored name from the token, and the bytes put
     * at the joined path. A missing name throws in the destination callback;
     * nothing is written then and the request ends in the global handler.
     */
    method Receive(base: JsString, body: UploadBody, originalName: JsString, mimeType: JsString, size: nat, token: JsString)
      returns (r: Result<UploadedFile, PathError>)
      modifies this`disk
      ensures r.Failure? <==> !HasNames(body)
      ensures r.Failure? ==> disk == old(disk)
      ensures r.Success? ==>
        && (var dir := GenerateStoragePath(base, PathMetadataOf(body)).value;
            var stored := StoredFilename(originalName, token);
            r.value == UploadedFile(originalName, stored, mimeType, size, dir + [stored]))
        && disk == old(disk) + {r.value.path}
    {
      var destination := GenerateStoragePath(base, PathMetadataOf(body));
      if destination.Failure? {
        return Failure(destination.error);
      }
      var stored := StoredFilename(originalName, token);
      var path := destination.value + [stored];
      disk := disk + {path};
      r := Success(UploadedFile(originalName, stored, mimeType, size, path));
    }

    /**
     * The upload handler. Early returns answer 400 and leave the stored bytes
     * alone; an invalid JSON metadata string throws before the row is
     * written, and the catch block then tries to unlink the stored file
     * (`cleanupFault` stands for that unlink failing, which is only logged).
     */
    method Upload(incoming: Option<UploadedFile>, body: UploadBody, isJson: JsString -> bool, cleanupFault: bool)
      returns (r: UploadResult)
      requires Valid()
      modifies this
      ensures Valid()
      ensures serviceTypes == old(serviceTypes)
      ensures incoming.None? ==> r == BadRequest(NoFile) && unchanged(this)
      ensures incoming.Some? && !HasNames(body) ==> r == BadRequest(MissingNames) && unchanged(this)
      ensures incoming.Some? && HasNames(body) ==>
        (var cn := body.clientName.value;
         && cn in clients
         && nextClientId == old(nextClientId) + (if cn in old(clients) then 0 else 1)
         && (cn in old(clients) ==> clients == old(clients))
         && (cn !in old(clients) ==>
               clients == old(clients)[cn := Client(old(nextClientId), cn, body.clientDetails)]))
      ensures incoming.Some? && HasNames(body) ==>
        (var ln := body.locationName.value;
         && ln in locations
         && nextLocationId == old(nextLocationId) + (if ln in old(locations) then 0 else 1)
         && (ln in old(locations) ==> locations == old(locations))
         && (ln !in old(locations) ==>
               locations == old(locations)[ln := Location(old(nextLocationId), ln, body.locationAddress, body.locationDetails)]))
      ensures incoming.Some? && HasNames(body) && body.serviceTypeName.value !in serviceTypes ==>
        r == BadRequest(ServiceTypeNotFound(body.serviceTypeName.value)) && disk == old(disk)
      ensures incoming.Some? && HasNames(body) && body.serviceTypeName.value in serviceTypes
              && !MetadataParses(body, isJson) ==>
        && r == ServerError(InvalidJson)
        && disk == if cleanupFault then old(disk) else old(disk) - {incoming.value.path}
      ensures r.Created? <==>
        incoming.Some? && HasNames(body) && body.serviceTypeName.value in serviceTypes && MetadataParses(body, isJson)
      ensures r.Created? ==>
        && r.file == NewRecord(old(nextFileId), incoming.value, body,
                               clients[body.clientName.value].id, locations[body.locationName.value].id,
                               serviceTypes[body.serviceTypeName.value].id)
        && r.file.id !in old(files)
        && files == old(files)[r.file.id := r.file]
        && disk == old(disk)
      ensures !r.Created? ==> files == old(files)
      ensures nextFileId == old(nextFileId) + (if r.Created? then 1 else 0)
    {
      if incoming.None? {
        return BadRequest(NoFile);
      }
      if !Truthy(body.clientName) || !Truthy(body.locationName) || !Truthy(body.serviceTypeName) {
        return BadRequest(MissingNames);
      }
      // 1. find or create the client, 2. find or create the location
      var client := FindOrCreateClient(body.clientName.value, body.clientDetails);
      assert serviceTypes == old(serviceTypes) && files == old(files) && disk == old(disk);
      ghost var clientsFound, nextClient := clients, nextClientId;
      var location := FindOrCreateLocation(body.locationName.value, body.locationAddress, body.locationDetails);
      assert serviceTypes == old(serviceTypes) && files == old(files) && disk == old(disk);
      assert clients == clientsFound && nextClientId == nextClient;
      assert nextFileId == old(nextFileId);
      // 3. the service type, 4. the row
      r := CreateFileRow(incoming.value, body, isJson, cleanupFault);
    }

    /**
     * Steps 3 and 4 of the upload handler, once client and location exist: a
     * missing service type answers 400; otherwise the row's data is built,
     * which parses the metadata and may throw into the catch block.
     */
    method CreateFileRow(f: UploadedFile, body: UploadBody, isJson: JsString -> bool, cleanupFault: bool)
      returns (r: UploadResult)
      requires Valid()
      requires HasNames(body)
      requires body.clientName.value in clients && body.locationName.value in locations
      modifies this`files, this`nextFileId, this`disk
      ensures Valid()
      ensures body.serviceTypeName.value !in serviceTypes ==>
        r == BadRequest(ServiceTypeNotFound(body.serviceTypeName.value)) && disk == old(disk)
      ensures body.serviceTypeName.value in serviceTypes && !MetadataParses(body, isJson) ==>
        && r == ServerError(InvalidJson)
        && disk == if cleanupFault then old(disk) else old(disk) - {f.path}
      ensures r.Created? <==> body.serviceTypeName.value in serviceTypes && MetadataParses(body, isJson)
      ensures r.Created? ==>
        && r.file == NewRecord(old(nextFileId), f, body,
                               clients[body.clientName.value].id, locations[body.locationName.value].id,
                               serviceTypes[body.serviceTypeName.value].id)
        && r.file.id !in old(files)
        && files == old(files)[r.file.id := r.file]
        && disk == old(disk)
      ensures !r.Created? ==> files == old(files)
      ensures nextFileId == old(nextFileId) + (if r.Created? then 1 else 0)
    {
      var serviceTypeName := body.serviceTypeName.value;
      if serviceTypeName !in serviceTypes {
        return BadRequest(ServiceTypeNotFound(serviceTypeName));
      }
      if !MetadataParses(body, isJson) {
        var _ := Unlink(f.path, cleanupFault);
        return ServerError(InvalidJson);
      }
      var clientName, locationName := body.clientName.value, body.locationName.value;
      var record := NewRecord(nextFileId, f, body, clients[clientName].id, locations[locationName].id,
                              serviceTypes[serviceTypeName].id);
      assert References(record, clients, locations, serviceTypes) by {
        assert clients[clientName].id == record.clientId;
        assert locations[locationName].id == record.locationId;
        assert serviceTypes[serviceTypeName].id == record.serviceTypeId;
      }
      files := files[record.id := record];
      nextFileId := nextFileId + 1;
      r := Created(record);
    }

    /** The record a download or delete looks up, as `findUnique` returns it. */
    function Lookup(id: nat): (o: Option<FileRecord>)
      reads this
      ensures o.Some? <==> id in files
      ensures o.Some? ==> o.value == files[id]
    {
      if id in files then Some(files[id]) else None
    }

    /**
     * The download handler: a missing row is reported before the disk is
     * looked at; a row whose path is not on disk is the second 404; otherwise
     * the bytes at the stored path go out under the original file name.
     */
    function Download(id: nat): (d: DownloadResult)
      reads this
      ensures d == RecordNotFound <==> id !in files
      ensures d == PhysicalFileMissing <==> id in files && files[id].path !in disk
      ensures d.Send? <==> id in files && files[id].path in disk
      ensures d.Send? ==> d == Send(files[id].path, files[id].originalName)
    {
      var record := Lookup(id);
      DownloadDecision(record, record.Some? && record.value.path in disk)
    }

    /**
     * The delete handler. Without a row nothing happens. With one, the unlink
     * is tried first, and the row is deleted whatever it reports.
     */
    method Delete(id: nat, unlinkFault: bool) returns (r: DeleteResult)
      requires Valid()
      modifies this`files, this`disk
      ensures Valid()
      ensures id !in old(files) ==> r == DeleteNotFound && files == old(files) && disk == old(disk)
      ensures id in old(files) ==>
        && r.Deleted? && r.fileId == id
        && files == old(files) - {id}
        && (r.outcome == Failed <==> unlinkFault)
        && (r.outcome == AlreadyAbsent <==> !unlinkFault && old(files)[id].path !in old(disk))
        && disk == if r.outcome == Removed then old(disk) - {old(files)[id].path} else old(disk)
      ensures Download(id) == RecordNotFound
    {
      if id !in files {
        return DeleteNotFound;
      }
      var record := files[id];
      var outcome := Unlink(record.path, unlinkFault);
      files := files - {id};
      r := Deleted(record.id, outcome);
    }
  }

  /**
   * The create direction of the lifecycle: once the upload middleware has
   * written a file, a row the handler creates for it is downloadable at once,
   * from the written path and under the original name.
   */
  method UploadThenDownload(store: Store, f: UploadedFile, body: UploadBody, isJson: JsString -> bool)
    returns (uploaded: UploadResult)
    requires store.Valid()
    requires f.path in store.disk
    modifies store
    ensures store.Valid()
    ensures UploadResponse(uploaded) == Response(201, Some(FileUploaded)) <==>
      HasNames(body) && body.serviceTypeName.value in old(store.serviceTypes) && MetadataParses(body, isJson)
    ensures uploaded.Created? ==>
      store.Download(uploaded.file.id) == Send(f.path, f.originalName)
  {
    uploaded := store.Upload(Some(f), body, isJson, false);
  }
}
