/**
  The `Client` operations of the binding. Each takes the client's
  configuration, the operation's arguments and the response the HTTP session
  returns, and gives back the request handed to the session (None when the
  operation raises before any call) and what the operation returns or raises.
*/
module Operations {
  import opened Wrappers
  import opened Vocabulary
  import opened PyValue
  import opened Dispatch
  import opened Translate
  import opened Rekey

  /** The binding's API version. */
  const VERSION := 4
  const DEFAULT_API_URL := "http://127.0.0.1:45869/"

  const API_VERSION_ENDPOINT := "/api_version"
  const VERIFY_ACCESS_KEY_ENDPOINT := "/verify_access_key"
  const ADD_FILE_ENDPOINT := "/add_files/add_file"
  const ADD_TAGS_ENDPOINT := "/add_tags/add_tags"
  const GET_URL_FILES_ENDPOINT := "/add_urls/get_url_files"
  const GET_URL_INFO_ENDPOINT := "/add_urls/get_url_info"
  const ADD_URL_ENDPOINT := "/add_urls/add_url"
  const ASSOCIATE_URL_ENDPOINT := "/add_urls/associate_url"
  const FILE_METADATA_ENDPOINT := "/get_files/file_metadata"
  const FILE_ENDPOINT := "/get_files/file"
  const THUMBNAIL_ENDPOINT := "/get_files/thumbnail"

  const HASHES_XOR_FILE_IDS := "hashes (exclusive) or file_ids required"
  const HASH_XOR_FILE_ID := "hash (exclusive) or file_id required"
  const NOT_FILE_OR_PATH := "Value must be file object or path"

  const NO_ARGS := Kwargs(None, None, None, None)

  function ParamsOnly(params: map<string, Value>): Kwargs {
    Kwargs(Some(params), None, None, None)
  }

  function JsonOnly(body: map<string, Value>): Kwargs {
    Kwargs(None, Some(body), None, None)
  }

  /** An optional request field: present exactly when the argument is truthy, and then that argument. */
  predicate OptionalField(fields: map<string, Value>, key: string, arg: Value) {
    && (key in fields <==> Truthy(arg))
    && (key in fields ==> fields[key] == arg)
  }

  /** A field sent serialised: present exactly when the argument is truthy, and then `json.dumps` of it. */
  predicate DumpedField(fields: map<string, Value>, key: string, arg: Value, dumps: Value -> string) {
    && (key in fields <==> Truthy(arg))
    && (key in fields ==> fields[key] == StrV(dumps(arg)))
  }

  /** `bool(a) ^ bool(b)`: exactly one of the two identity forms was supplied. */
  predicate ExactlyOne(a: Value, b: Value) {
    Truthy(a) != Truthy(b)
  }

  // ---------------------------------------------------------------------------
  // Construction

  /** The `api_version` property. */
  method ApiVersion(c: Client, response: Response) returns (sent: Request, r: Result<Value, Error>)
    ensures sent == Outgoing(c, GET, API_VERSION_ENDPOINT, NO_ARGS)
    ensures RaisesForStatus(response.status) ==> r == Err(Classify(response).error)
    ensures !RaisesForStatus(response.status) ==> r == GetItem(response.body, "version")
  {
    var called;
    sent, called := CallEndpoint(c, GET, API_VERSION_ENDPOINT, NO_ARGS, response);
    if called.Err? {
      return sent, Err(called.error);
    }
    r := GetItem(called.value.body, "version");
  }

  /** A constructed client and whether construction warned about the version. */
  datatype Connected = Connected(client: Client, versionWarning: bool)

  /** `self.VERSION != api_version`. */
  predicate VersionDiffers(apiVersion: Value) {
    IntValue(apiVersion) != Some(VERSION)
  }

  /**
    `Client(access_key, url)`: the trailing slashes of the URL go, and the
    service's API version is fetched and compared with the binding's. A
    different version only warns; construction fails only when fetching the
    version does.
  */
  method Connect(accessKey: Option<string>, url: string, versionResponse: Response)
    returns (sent: Request, r: Result<Connected, Error>)
    ensures sent == Outgoing(Client(accessKey, RStripSlash(url)), GET, API_VERSION_ENDPOINT, NO_ARGS)
    ensures r.Ok? <==> !RaisesForStatus(versionResponse.status) && GetItem(versionResponse.body, "version").Ok?
    ensures r.Ok? ==> r.value.client == Client(accessKey, RStripSlash(url))
    ensures r.Ok? ==> r.value.versionWarning == VersionDiffers(GetItem(versionResponse.body, "version").value)
    ensures r.Err? && RaisesForStatus(versionResponse.status) ==> r.error == Classify(versionResponse).error
    ensures r.Err? && !RaisesForStatus(versionResponse.status) ==> r.error == GetItem(versionResponse.body, "version").error
  {
    var client := Client(accessKey, RStripSlash(url));
    var apiVersion;
    sent, apiVersion := ApiVersion(client, versionResponse);
    if apiVersion.Err? {
      return sent, Err(apiVersion.error);
    }
    var warn := IntValue(apiVersion.value) != Some(VERSION);
    r := Ok(Connected(client, warn));
  }

  /** `Client()` with the default arguments talks to the local client without a key. */
  lemma DefaultClient()
    ensures Client(None, RStripSlash(DEFAULT_API_URL)) == Client(None, "http://127.0.0.1:45869")
  {
    assert DEFAULT_API_URL[..|DEFAULT_API_URL| - 1] == "http://127.0.0.1:45869";
  }

  // ---------------------------------------------------------------------------
  // Operations whose responses carry enumeration codes

  method VerifyAccessKey(c: Client, response: Response) returns (sent: Request, r: Result<Value, Error>)
    ensures sent == Outgoing(c, GET, VERIFY_ACCESS_KEY_ENDPOINT, NO_ARGS)
    ensures RaisesForStatus(response.status) ==> r == Err(Classify(response).error)
    ensures !RaisesForStatus(response.status) ==> r == AccessKeyTranslated(response.body)
  {
    var called;
    sent, called := CallEndpoint(c, GET, VERIFY_ACCESS_KEY_ENDPOINT, NO_ARGS, response);
    if called.Err? {
      return sent, Err(called.error);
    }
    r := AccessKeyTranslated(called.value.body);
  }

  /** What may be passed to `add_file`: a str, an io.BytesIO (its unread bytes), or anything else. */
  datatype FileArgument = PathArgument(path: string) | StreamArgument(unread: seq<bv8>) | OtherArgument

  const OCTET_STREAM_HEADERS := map["Content-Type" := "application/octet-stream"]

  /**
    `add_file`: a path is sent as a JSON reference, a byte stream as a raw
    octet-stream body, and any other argument raises ValueError before any
    call; the reply's `status` becomes an ImportStatus.
  */
  method AddFile(c: Client, file: FileArgument, response: Response)
    returns (sent: Option<Request>, r: Result<Value, Error>)
    ensures file.OtherArgument? ==> sent == None && r == Err(ValueError(NOT_FILE_OR_PATH))
    ensures file.PathArgument? ==>
      sent == Some(Outgoing(c, POST, ADD_FILE_ENDPOINT, JsonOnly(map["path" := StrV(file.path)])))
    ensures file.StreamArgument? ==>
      sent == Some(Outgoing(c, POST, ADD_FILE_ENDPOINT, Kwargs(None, None, Some(file.unread), Some(OCTET_STREAM_HEADERS))))
    ensures !file.OtherArgument? && RaisesForStatus(response.status) ==> r == Err(Classify(response).error)
    ensures !file.OtherArgument? && !RaisesForStatus(response.status) ==>
      r == EnumFieldDecoded(response.body, "status", ImportStatusClass)
  {
    var request, called;
    match file {
      case PathArgument(path) =>
        request, called := CallEndpoint(c, POST, ADD_FILE_ENDPOINT, JsonOnly(map["path" := StrV(path)]), response);
      case StreamArgument(unread) =>
        request, called := CallEndpoint(c, POST, ADD_FILE_ENDPOINT,
          Kwargs(None, None, Some(unread), Some(OCTET_STREAM_HEADERS)), response);
      case OtherArgument =>
        return None, Err(ValueError(NOT_FILE_OR_PATH));
    }
    sent := Some(request);
    if called.Err? {
      return sent, Err(called.error);
    }
    r := EnumFieldDecoded(called.value.body, "status", ImportStatusClass);
  }

  method GetUrlFiles(c: Client, url: string, response: Response) returns (sent: Request, r: Result<Value, Error>)
    ensures sent == Outgoing(c, GET, GET_URL_FILES_ENDPOINT, ParamsOnly(map["url" := StrV(url)]))
    ensures RaisesForStatus(response.status) ==> r == Err(Classify(response).error)
    ensures !RaisesForStatus(response.status) ==> r == UrlFilesTranslated(response.body)
  {
    var called;
    sent, called := CallEndpoint(c, GET, GET_URL_FILES_ENDPOINT, ParamsOnly(map["url" := StrV(url)]), response);
    if called.Err? {
      return sent, Err(called.error);
    }
    var data := called.value.body;
    var statuses := GetItem(data, "url_file_statuses");
    if statuses.Err? {
      return sent, Err(statuses.error);
    }
    var entries := IterItems(statuses.value);
    if entries.Err? {
      return sent, Err(entries.error);
    }
    var decoded := DecodeUrlFileStatuses(entries.value);
    if decoded.Err? {
      return sent, Err(decoded.error);
    }
    if statuses.value.ListV? {
      data := SetItem(data, "url_file_statuses", ListV(decoded.value));
    }
    r := Ok(data);
  }

  method GetUrlInfo(c: Client, url: string, response: Response) returns (sent: Request, r: Result<Value, Error>)
    ensures sent == Outgoing(c, GET, GET_URL_INFO_ENDPOINT, ParamsOnly(map["url" := StrV(url)]))
    ensures RaisesForStatus(response.status) ==> r == Err(Classify(response).error)
    ensures !RaisesForStatus(response.status) ==> r == EnumFieldDecoded(response.body, "url_type", URLTypeClass)
  {
    var called;
    sent, called := CallEndpoint(c, GET, GET_URL_INFO_ENDPOINT, ParamsOnly(map["url" := StrV(url)]), response);
    if called.Err? {
      return sent, Err(called.error);
    }
    r := EnumFieldDecoded(called.value.body, "url_type", URLTypeClass);
  }

  // ---------------------------------------------------------------------------
  // Operations that build a JSON body

  /**
    `add_tags`: the body always carries the hashes, and carries each of the two
    tag maps exactly when it is truthy; nothing else. The reply is not read.
  */
  method AddTags(c: Client, hashes: Value, servicesToTags: Value, servicesToActions: Value, response: Response)
    returns (sent: Request, r: Result<(), Error>)
    ensures sent.kwargs.json.Some?
    ensures sent == Outgoing(c, POST, ADD_TAGS_ENDPOINT, JsonOnly(sent.kwargs.json.value))
    ensures var body := sent.kwargs.json.value;
      && body.Keys <= {"hashes", "service_names_to_tags", "service_names_to_actions_to_tags"}
      && "hashes" in body && body["hashes"] == hashes
      && OptionalField(body, "service_names_to_tags", servicesToTags)
      && OptionalField(body, "service_names_to_actions_to_tags", servicesToActions)
    ensures r == if RaisesForStatus(response.status) then Err(Classify(response).error) else Ok(())
  {
    var body := map["hashes" := hashes];
    if Truthy(servicesToTags) {
      body := body["service_names_to_tags" := servicesToTags];
    }
    if Truthy(servicesToActions) {
      body := body["service_names_to_actions_to_tags" := servicesToActions];
    }
    var called;
    sent, called := CallEndpoint(c, POST, ADD_TAGS_ENDPOINT, JsonOnly(body), response);
    r := if called.Err? then Err(called.error) else Ok(());
  }

  /**
    `add_url`: the body always carries the URL, and carries the page name and
    the tag map exactly when each is truthy; the decoded reply is returned.
  */
  method AddUrl(c: Client, url: string, pageName: Value, serviceToTags: Value, response: Response)
    returns (sent: Request, r: Result<Value, Error>)
    ensures sent.kwargs.json.Some?
    ensures sent == Outgoing(c, POST, ADD_URL_ENDPOINT, JsonOnly(sent.kwargs.json.value))
    ensures var body := sent.kwargs.json.value;
      && body.Keys <= {"url", "destination_page_name", "service_names_to_tags"}
      && "url" in body && body["url"] == StrV(url)
      && OptionalField(body, "destination_page_name", pageName)
      && OptionalField(body, "service_names_to_tags", serviceToTags)
    ensures r == if RaisesForStatus(response.status) then Err(Classify(response).error) else Ok(response.body)
  {
    var body := map["url" := StrV(url)];
    if Truthy(pageName) {
      body := body["destination_page_name" := pageName];
    }
    if Truthy(serviceToTags) {
      body := body["service_names_to_tags" := serviceToTags];
    }
    var called;
    sent, called := CallEndpoint(c, POST, ADD_URL_ENDPOINT, JsonOnly(body), response);
    r := if called.Err? then Err(called.error) else Ok(called.value.body);
  }

  /**
    `associate_url`: the body always carries the hashes, and carries the URLs
    to add and to delete exactly when each list is truthy. The reply is not read.
  */
  method AssociateUrl(c: Client, hashes: Value, add: Value, delete: Value, response: Response)
    returns (sent: Request, r: Result<(), Error>)
    ensures sent.kwargs.json.Some?
    ensures sent == Outgoing(c, POST, ASSOCIATE_URL_ENDPOINT, JsonOnly(sent.kwargs.json.value))
    ensures var body := sent.kwargs.json.value;
      && body.Keys <= {"hashes", "urls_to_add", "urls_to_delete"}
      && "hashes" in body && body["hashes"] == hashes
      && OptionalField(body, "urls_to_add", add)
      && OptionalField(body, "urls_to_delete", delete)
    ensures r == if RaisesForStatus(response.status) then Err(Classify(response).error) else Ok(())
  {
    var body := map["hashes" := hashes];
    if Truthy(add) {
      body := body["urls_to_add" := add];
    }
    if Truthy(delete) {
      body := body["urls_to_delete" := delete];
    }
    var called;
    sent, called := CallEndpoint(c, POST, ASSOCIATE_URL_ENDPOINT, JsonOnly(body), response);
    r := if called.Err? then Err(called.error) else Ok(());
  }

  // ---------------------------------------------------------------------------
  // Operations that take a file identity

  /**
    `file_metadata`: exactly one of hashes and file ids must be truthy, else a
    usage error is raised before any call. The params carry each identity form
    and the identifiers-only flag, serialised by `dumps`, exactly when truthy;
    the reply's records are re-keyed unless only identifiers were asked for.
  */
  method FileMetadata(c: Client, dumps: Value -> string, hashes: Value, fileIds: Value, onlyIdentifiers: Value, response: Response)
    returns (sent: Option<Request>, r: Result<Value, Error>)
    ensures !ExactlyOne(hashes, fileIds) ==> sent == None && r == Err(UsageError(HASHES_XOR_FILE_IDS))
    ensures ExactlyOne(hashes, fileIds) ==>
      && sent.Some? && sent.value.kwargs.params.Some?
      && sent.value == Outgoing(c, GET, FILE_METADATA_ENDPOINT, ParamsOnly(sent.value.kwargs.params.value))
      && var params := sent.value.kwargs.params.value;
      && params.Keys <= {"hashes", "file_ids", "only_return_identifiers"}
      && ("hashes" in params) != ("file_ids" in params)
      && DumpedField(params, "hashes", hashes, dumps)
      && DumpedField(params, "file_ids", fileIds, dumps)
      && DumpedField(params, "only_return_identifiers", onlyIdentifiers, dumps)
    ensures ExactlyOne(hashes, fileIds) && RaisesForStatus(response.status) ==> r == Err(Classify(response).error)
    ensures ExactlyOne(hashes, fileIds) && !RaisesForStatus(response.status) ==>
      r == MetadataTranslated(response.body, Truthy(onlyIdentifiers))
  {
    if Truthy(hashes) == Truthy(fileIds) {
      return None, Err(UsageError(HASHES_XOR_FILE_IDS));
    }
    var params := MetadataParams(dumps, hashes, fileIds, onlyIdentifiers);
    var request, called := CallEndpoint(c, GET, FILE_METADATA_ENDPOINT, ParamsOnly(params), response);
    sent := Some(request);
    if called.Err? {
      return sent, Err(called.error);
    }
    r := TranslateMetadata(called.value.body, Truthy(onlyIdentifiers));
  }

  /** The params of `file_metadata`: each argument, serialised, under its own name exactly when truthy. */
  method MetadataParams(dumps: Value -> string, hashes: Value, fileIds: Value, onlyIdentifiers: Value)
    returns (params: map<string, Value>)
    ensures params.Keys <= {"hashes", "file_ids", "only_return_identifiers"}
    ensures DumpedField(params, "hashes", hashes, dumps)
    ensures DumpedField(params, "file_ids", fileIds, dumps)
    ensures DumpedField(params, "only_return_identifiers", onlyIdentifiers, dumps)
  {
    params := map[];
    if Truthy(hashes) {
      params := params["hashes" := StrV(dumps(hashes))];
    }
    if Truthy(fileIds) {
      params := params["file_ids" := StrV(dumps(fileIds))];
    }
    if Truthy(onlyIdentifiers) {
      params := params["only_return_identifiers" := StrV(dumps(onlyIdentifiers))];
    }
  }

  /** The reply of `file_metadata`: its records, re-keyed one by one unless only identifiers were asked for. */
  method TranslateMetadata(body: Value, onlyIdentifiers: bool) returns (r: Result<Value, Error>)
    ensures r == MetadataTranslated(body, onlyIdentifiers)
  {
    var data := GetItem(body, "metadata");
    if data.Err? || onlyIdentifiers {
      return data;
    }
    var records := IterItems(data.value);
    if records.Err? {
      return Err(records.error);
    }
    var rekeyed := RekeyRecords(records.value);
    if rekeyed.Err? {
      return Err(rekeyed.error);
    }
    r := Ok(if data.value.ListV? then ListV(rekeyed.value) else data.value);
  }

  /** The params of `get_file` and `get_thumbnail`: the hash if truthy, else the file id if truthy. */
  method IdentityParams(hash: Value, fileId: Value) returns (params: map<string, Value>)
    ensures params.Keys <= {"hash", "file_id"}
    ensures "hash" in params <==> Truthy(hash)
    ensures "file_id" in params <==> !Truthy(hash) && Truthy(fileId)
    ensures "hash" in params ==> params["hash"] == hash
    ensures "file_id" in params ==> params["file_id"] == fileId
  {
    params := map[];
    if Truthy(hash) {
      params := params["hash" := hash];
    } else if Truthy(fileId) {
      params := params["file_id" := fileId];
    }
  }

  /** The request of a validated identity: exactly one of `hash` and `file_id`, the truthy one. */
  predicate OneIdentity(params: map<string, Value>, hash: Value, fileId: Value) {
    && |params| == 1
    && (Truthy(hash) ==> params == map["hash" := hash])
    && (Truthy(fileId) ==> params == map["file_id" := fileId])
  }

  /**
    `get_file`: exactly one of hash and file id must be truthy, else a usage
    error is raised before any call; the raw reply bytes are returned.
  */
  method GetFile(c: Client, hash: Value, fileId: Value, response: Response)
    returns (sent: Option<Request>, r: Result<seq<bv8>, Error>)
    ensures !ExactlyOne(hash, fileId) ==> sent == None && r == Err(UsageError(HASH_XOR_FILE_ID))
    ensures ExactlyOne(hash, fileId) ==>
      && sent.Some? && sent.value.kwargs.params.Some?
      && sent.value == Outgoing(c, GET, FILE_ENDPOINT, ParamsOnly(sent.value.kwargs.params.value))
      && OneIdentity(sent.value.kwargs.params.value, hash, fileId)
    ensures ExactlyOne(hash, fileId) ==>
      r == if RaisesForStatus(response.status) then Err(Classify(response).error) else Ok(response.content)
  {
    if Truthy(hash) == Truthy(fileId) {
      return None, Err(UsageError(HASH_XOR_FILE_ID));
    }
    var params := IdentityParams(hash, fileId);
    assert params.Keys == {"hash"} || params.Keys == {"file_id"};
    var request, called := CallEndpoint(c, GET, FILE_ENDPOINT, ParamsOnly(params), response);
    sent := Some(request);
    r := if called.Err? then Err(called.error) else Ok(called.value.content);
  }

  /** `get_thumbnail`: as `get_file`, for the thumbnail endpoint. */
  method GetThumbnail(c: Client, hash: Value, fileId: Value, response: Response)
    returns (sent: Option<Request>, r: Result<seq<bv8>, Error>)
    ensures !ExactlyOne(hash, fileId) ==> sent == None && r == Err(UsageError(HASH_XOR_FILE_ID))
    ensures ExactlyOne(hash, fileId) ==>
      && sent.Some? && sent.value.kwargs.params.Some?
      && sent.value == Outgoing(c, GET, THUMBNAIL_ENDPOINT, ParamsOnly(sent.value.kwargs.params.value))
      && OneIdentity(sent.value.kwargs.params.value, hash, fileId)
    ensures ExactlyOne(hash, fileId) ==>
      r == if RaisesForStatus(response.status) then Err(Classify(response).error) else Ok(response.content)
  {
    if Truthy(hash) == Truthy(fileId) {
      return None, Err(UsageError(HASH_XOR_FILE_ID));
    }
    var params := IdentityParams(hash, fileId);
    assert params.Keys == {"hash"} || params.Keys == {"file_id"};
    var request, called := CallEndpoint(c, GET, THUMBNAIL_ENDPOINT, ParamsOnly(params), response);
    sent := Some(request);
    r := if called.Err? then Err(called.error) else Ok(called.value.content);
  }
}
