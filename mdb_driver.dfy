/**
 * mdb/mdb_driver.go: request routing of the object database driver.  The
 * class lookup by underscore name, object-id parsing, JSON decoding and
 * every database call are oracles of an `MdbServer`; what is modelled is
 * which oracle each request consults, in which order, and which error it
 * answers.
 */
module MdbDriver {
  import opened Common
  import opened Classes

  type Body = map<string, Value>
  type Params = map<string, string>

  datatype ObjectId = ObjectId(hex: string)

  /** json.Unmarshal into a map: a body (nil for JSON null), or the decoding error. */
  datatype Decoded = Decoded(body: Option<Body>) | DecodeFailed(message: string)

  /** A database answer, or the error's text. */
  datatype Db<T> = DbOk(value: T) | DbErr(message: string)

  /** RemoveAll and RemoveBy: the boolean answered together with an optional error. */
  datatype Removal = Removal(removed: bool, err: Option<string>)

  /** What the driver consults. */
  datatype MdbServer = MdbServer(
    findByUnderscoreName: string -> Option<ClassDef>,
    parseObjectIdHex: string -> Option<ObjectId>,
    unmarshal: string -> Decoded,
    show: Value -> string,
    create: (ClassDef, Option<Body>) -> Db<Value>,
    createChildren: (ClassDef, Value, Option<Body>) -> Option<seq<string>>,
    update: (ClassDef, ObjectId, Option<Body>) -> Option<string>,
    removeAll: (ClassDef, Params) -> Removal,
    removeBy: (ClassDef, Params) -> Removal,
    removeById: (ClassDef, ObjectId) -> Option<string>,
    findBy: (ClassDef, Params) -> Db<Value>,
    count: (ClassDef, Params) -> Db<int>,
    findById: (ClassDef, ObjectId) -> Db<Value>)

  /** A driver reply: its value, or the runtime error. */
  datatype Reply<T> = Replied(value: T) | Failed(error: AppError)

  /** The class a request names: found, not named at all, or an error. */
  datatype Lookup = Found(definition: ClassDef) | Unnamed | LookupFailed(error: AppError)

  function ClassNotFound(name: string): AppError
  {
    BadRequest("class '" + name + "' is not found")
  }

  const NotObjectId: AppError := BadRequest("id is not a objectId")

  /** findClassByBody: the class named by the body's "type", if any. */
  function FindClassByBody(s: MdbServer, body: Option<Body>): (r: Lookup)
    ensures r.Unnamed? <==> body.None? || "type" !in body.value
    ensures r.Found? <==>
              body.Some? && "type" in body.value && body.value["type"].Str? &&
              s.findByUnderscoreName(body.value["type"].s).Some?
    ensures r.Found? ==> r.definition == s.findByUnderscoreName(body.value["type"].s).value
    ensures r.LookupFailed? ==> r.error.code == BadRequestCode
  {
    if body.None? || "type" !in body.value then Unnamed
    else
      var objectType := body.value["type"];
      if !objectType.Str? then
        LookupFailed(BadRequest("type '" + s.show(objectType) + "' in body is not a string type"))
      else
        match s.findByUnderscoreName(objectType.s)
        case None => LookupFailed(ClassNotFound(objectType.s))
        case Some(d) => Found(d)
  }

  /** findClass: the body's type wins; otherwise params["mdb.type"], which is then required. */
  function FindClass(s: MdbServer, params: Params, body: Option<Body>): (r: Reply<ClassDef>)
    ensures !FindClassByBody(s, body).Unnamed? ==>
              (r.Replied? <==> FindClassByBody(s, body).Found?) &&
              (r.Replied? ==> r.value == FindClassByBody(s, body).definition) &&
              (r.Failed? ==> r.error == FindClassByBody(s, body).error)
    ensures FindClassByBody(s, body).Unnamed? && ParamOf(params, "mdb.type") == "" ==>
              r == Failed(IsRequired("mdb.type"))
    ensures FindClassByBody(s, body).Unnamed? && ParamOf(params, "mdb.type") != "" ==>
              (r.Replied? <==> s.findByUnderscoreName(params["mdb.type"]).Some?)
  {
    match FindClassByBody(s, body)
    case Found(d) => Replied(d)
    case LookupFailed(e) => Failed(e)
    case Unnamed =>
      var objectType := ParamOf(params, "mdb.type");
      if objectType == "" then Failed(IsRequired("mdb.type"))
      else
        match s.findByUnderscoreName(objectType)
        case None => Failed(ClassNotFound(objectType))
        case Some(d) => Replied(d)
  }

  /** The class named by params["mdb.type"] alone, as Get and Delete look it up. */
  function ClassOfParams(s: MdbServer, params: Params): (r: Reply<ClassDef>)
    ensures r == FindClass(s, params, None)
  {
    var objectType := ParamOf(params, "mdb.type");
    if objectType == "" then Failed(IsRequired("mdb.type"))
    else
      match s.findByUnderscoreName(objectType)
      case None => Failed(ClassNotFound(objectType))
      case Some(d) => Replied(d)
  }

  /** The answer of Create: the new instance id, and the children's warnings joined by newlines. */
  datatype Created = Created(instanceId: Value, warnings: Option<string>)

  /** Create: a body is required, decoded, its class found, the instance and then its children inserted. */
  function Create(s: MdbServer, params: Params): (r: Reply<Created>)
    ensures "body" !in params ==> r == Failed(BodyNotExists)
    ensures "body" in params && s.unmarshal(params["body"]).DecodeFailed? ==>
              r.Failed? && r.error.code == InternalErrorCode
    ensures r.Replied? ==>
              "body" in params && s.unmarshal(params["body"]).Decoded? &&
              var body := s.unmarshal(params["body"]).body;
              FindClass(s, params, body).Replied? &&
              s.create(FindClass(s, params, body).value, body) == DbOk(r.value.instanceId)
  {
    if "body" !in params then Failed(BodyNotExists)
    else
      match s.unmarshal(params["body"])
      case DecodeFailed(e) => Failed(InternalError("unmarshal object from request failed, " + e))
      case Decoded(attributes) =>
        match FindClass(s, params, attributes)
        case Failed(e) => Failed(e)
        case Replied(definition) =>
          match s.create(definition, attributes)
          case DbErr(e) => Failed(InternalError("insert object to db, " + e))
          case DbOk(id) =>
            var warnings := s.createChildren(definition, id, attributes);
            Replied(Created(id, if warnings.Some? then Some(Join(warnings.value, "\n")) else None))
  }

  /** A database error whose text is "not found" is RecordNotFound(id); any other is internal. */
  function DbFailure(id: string, message: string, prefix: string): (r: AppError)
    ensures r.code == (if message == "not found" then RecordNotFoundCode else InternalErrorCode)
  {
    if message == "not found" then RecordNotFound(id) else InternalError(prefix + message)
  }

  /** Put: id first, then the body, then the class, then the update. */
  function Put(s: MdbServer, params: Params): (r: Reply<bool>)
    ensures ParamOf(params, "id") == "" ==> r == Failed(IdNotExists)
    ensures ParamOf(params, "id") != "" && s.parseObjectIdHex(params["id"]).None? ==> r == Failed(NotObjectId)
    ensures ParamOf(params, "id") != "" && s.parseObjectIdHex(params["id"]).Some? && "body" !in params ==>
              r == Failed(BodyNotExists)
    ensures r.Replied? ==>
              "id" in params && s.parseObjectIdHex(params["id"]).Some? && "body" in params &&
              s.unmarshal(params["body"]).Decoded? &&
              var body := s.unmarshal(params["body"]).body;
              FindClass(s, params, body).Replied? &&
              s.update(FindClass(s, params, body).value, s.parseObjectIdHex(params["id"]).value, body).None?
  {
    var id := ParamOf(params, "id");
    if id == "" then Failed(IdNotExists)
    else
      match s.parseObjectIdHex(id)
      case None => Failed(NotObjectId)
      case Some(oid) =>
        if "body" !in params then Failed(BodyNotExists)
        else
          match s.unmarshal(params["body"])
          case DecodeFailed(e) => Failed(InternalError("unmarshal object from request failed, " + e))
          case Decoded(result) =>
            match FindClass(s, params, result)
            case Failed(e) => Failed(e)
            case Replied(definition) =>
              match s.update(definition, oid, result)
              case Some(e) => Failed(DbFailure(id, e, "update object to db, "))
              case None => Replied(true)
  }

  /** How Delete routes an id. */
  datatype DeleteRoute = DeleteMissing | DeleteAll | DeleteByQuery | DeleteById

  function DeleteRouteOf(id: string): (r: DeleteRoute)
    ensures r == DeleteMissing <==> id == ""
    ensures r == DeleteAll <==> id == "all"
    ensures r == DeleteByQuery <==> id == "query"
  {
    if id == "" then DeleteMissing
    else if id == "all" then DeleteAll
    else if id == "query" then DeleteByQuery
    else DeleteById
  }

  /** The (bool, error) pair Delete answers. */
  datatype Deleted = Deleted(removed: bool, err: Option<AppError>)

  function RemoveReply(m: Removal): (r: Deleted)
    ensures r.removed == m.removed
    ensures r.err.Some? <==> m.err.Some?
  {
    if m.err.Some? then Deleted(m.removed, Some(InternalError("remove object from db failed, " + m.err.value)))
    else Deleted(m.removed, None)
  }

  /** Delete: the class from params["mdb.type"], then routing on the id. */
  function Delete(s: MdbServer, params: Params): (r: Deleted)
    ensures ClassOfParams(s, params).Failed? ==> r == Deleted(false, Some(ClassOfParams(s, params).error))
    ensures ClassOfParams(s, params).Replied? ==>
              var d := ClassOfParams(s, params).value;
              var id := ParamOf(params, "id");
              match DeleteRouteOf(id)
              case DeleteMissing => r == Deleted(false, Some(IdNotExists))
              case DeleteAll => r.removed == s.removeAll(d, params).removed &&
                                (r.err.None? <==> s.removeAll(d, params).err.None?)
              case DeleteByQuery => r.removed == s.removeBy(d, params).removed &&
                                    (r.err.None? <==> s.removeBy(d, params).err.None?)
              case DeleteById =>
                if s.parseObjectIdHex(id).None? then r == Deleted(false, Some(NotObjectId))
                else (r.removed <==> s.removeById(d, s.parseObjectIdHex(id).value).None?) &&
                     (r.removed <==> r.err.None?)
  {
    match ClassOfParams(s, params)
    case Failed(e) => Deleted(false, Some(e))
    case Replied(definition) =>
      var id := ParamOf(params, "id");
      if id == "" then Deleted(false, Some(IdNotExists))
      else if id == "all" then RemoveReply(s.removeAll(definition, params))
      else if id == "query" then RemoveReply(s.removeBy(definition, params))
      else
        match s.parseObjectIdHex(id)
        case None => Deleted(false, Some(NotObjectId))
        case Some(oid) =>
          match s.removeById(definition, oid)
          case Some(e) => Deleted(false, Some(DbFailure(id, e, "remove object from db failed, ")))
          case None => Deleted(true, None)
  }

  /** How Get routes an id. */
  datatype GetRoute = GetByQuery | GetCount | GetById

  function GetRouteOf(id: string): (r: GetRoute)
    ensures r == GetByQuery <==> id == "" || id == "query"
    ensures r == GetCount <==> id == "count"
  {
    if id == "" || id == "query" then GetByQuery
    else if id == "count" then GetCount
    else GetById
  }

  function QueryReply(q: Db<Value>): (r: Reply<Value>)
    ensures r.Replied? <==> q.DbOk?
    ensures r.Replied? ==> r.value == q.value
  {
    match q
    case DbErr(e) => Failed(InternalError("query result from db, " + e))
    case DbOk(v) => Replied(v)
  }

  /** Get: the class from params["mdb.type"], then routing on the id. */
  function Get(s: MdbServer, params: Params): (r: Reply<Value>)
    ensures ClassOfParams(s, params).Failed? ==> r == Failed(ClassOfParams(s, params).error)
    ensures ClassOfParams(s, params).Replied? ==>
              var d := ClassOfParams(s, params).value;
              var id := ParamOf(params, "id");
              match GetRouteOf(id)
              case GetByQuery => r == QueryReply(s.findBy(d, params))
              case GetCount => r.Replied? <==> s.count(d, params).DbOk?
              case GetById =>
                if s.parseObjectIdHex(id).None? then r == Failed(NotObjectId)
                else
                  var answer := s.findById(d, s.parseObjectIdHex(id).value);
                  (r.Replied? <==> answer.DbOk?) &&
                  (answer.DbErr? && answer.message == "not found" ==> r == Failed(RecordNotFound(id)))
  {
    match ClassOfParams(s, params)
    case Failed(e) => Failed(e)
    case Replied(definition) =>
      var id := ParamOf(params, "id");
      if id == "" || id == "query" then QueryReply(s.findBy(definition, params))
      else if id == "count" then
        match s.count(definition, params)
        case DbErr(e) => Failed(InternalError("query result from db, " + e))
        case DbOk(n) => Replied(Int(n))
      else
        match s.parseObjectIdHex(id)
        case None => Failed(NotObjectId)
        case Some(oid) =>
          match s.findById(definition, oid)
          case DbErr(e) => Failed(DbFailure(id, e, "query result from db, "))
          case DbOk(v) => Replied(v)
  }

  /** A malformed object id is a BadRequest for Put, Delete and Get alike, once the request gets that far. */
  lemma MalformedIdRejected(s: MdbServer, params: Params)
    requires "id" in params && params["id"] !in {"", "all", "query", "count"}
    requires s.parseObjectIdHex(params["id"]).None?
    requires ClassOfParams(s, params).Replied?
    ensures Put(s, params) == Failed(NotObjectId)
    ensures Delete(s, params) == Deleted(false, Some(NotObjectId))
    ensures Get(s, params) == Failed(NotObjectId)
    ensures NotObjectId.code == BadRequestCode
  {
  }

  /** Without a body's type, the three lookups agree on params["mdb.type"]. */
  lemma ParamsLookupAgrees(s: MdbServer, params: Params, body: Option<Body>)
    requires body.None? || "type" !in body.value
    ensures FindClass(s, params, body) == ClassOfParams(s, params)
  {
  }
}
