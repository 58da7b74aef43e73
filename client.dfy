/**
 * Bunny\Stream\Client: the three configuration fields written once by the
 * constructor, the transport it creates, one method per operation, and the
 * two-step uploadVideo workflow. Each method builds its request the way the
 * client does, sends it once and runs the status chain of Classification on the
 * response; its contract says which requests were sent and what the call ends in.
 */
module Stream {
  import opened Wrappers
  import opened Http
  import opened Exceptions
  import Requests
  import C = Classification

  /**
   * The local disk at the time of a call: which paths `file_exists` accepts,
   * which `fopen($path, 'r')` can open, and the content `file_get_contents`
   * reads from each readable path.
   */
  datatype LocalFiles = LocalFiles(existing: set<string>, openable: set<string>, readable: map<string, seq<bv8>>)

  /** The result of a call together with the requests it sent, in order. */
  datatype Run = Run(outcome: C.Outcome, issued: seq<Request>)

  /** A call that sent nothing but `run.issued` after `before` and ended in `run.outcome`. */
  predicate Performed(before: seq<Request>, after: seq<Request>, r: C.Outcome, run: Run)
  {
    after == before + run.issued && r == run.outcome
  }

  /** One round trip: send `req`, classify the response. */
  function Exchange(server: Server, history: seq<Request>, accessKey: string, op: C.Operation, subject: string, req: Request): Run
  {
    Run(C.Classify(op, subject, accessKey, server(history, req)), [req])
  }

  const FileMissingMessage: string := "File does not exist at given location."
  const FileUnopenableMessage: string := "The local file could not be opened."

  function CreateVideoRequest(title: Value, collectionId: Option<string>, thumbnailTime: Option<int>): Request
  {
    Request(POST, "videos", [], JsonBody(Requests.CreateVideoBody(title, collectionId, thumbnailTime)))
  }

  function UploadRequest(videoId: string, path: string, enabledResolutions: Option<string>): Request
  {
    Request(PUT, "videos/" + videoId, Requests.UploadQuery(enabledResolutions), FileStream(path))
  }

  /** uploadVideoWithVideoId: the two local checks, then one PUT of the file stream. */
  function UploadWithVideoIdRun(server: Server, history: seq<Request>, accessKey: string, videoId: string, path: string,
                                enabledResolutions: Option<string>, files: LocalFiles): Run
  {
    if path !in files.existing then Run(C.Raised(NewBase(FileMissingMessage)), [])
    else if path !in files.openable then Run(C.Raised(NewBase(FileUnopenableMessage)), [])
    else Exchange(server, history, accessKey, C.UploadVideoWithVideoId, videoId, UploadRequest(videoId, path, enabledResolutions))
  }

  /**
   * Where a created object without a string guid fails: PHP 8 raises the
   * TypeError either at the read `$videoObject['guid']` (on a string body) or
   * when the value read reaches uploadVideoWithVideoId's `string $videoId`.
   */
  const GuidSite: string := "$videoObject['guid']"

  /** `$videoObject['guid']` where a string is expected: present only for an object whose guid is a string. */
  function GuidOf(videoObject: Json): Option<string>
  {
    if videoObject.JObject? && "guid" in videoObject.members && videoObject.members["guid"].JString?
    then Some(videoObject.members["guid"].s)
    else None
  }

  /** uploadVideo: createVideo, then uploadVideoWithVideoId on the returned guid; nothing is undone on failure. */
  function UploadVideoRun(server: Server, history: seq<Request>, accessKey: string, title: string, path: string,
                          collectionId: Option<string>, thumbnailTime: Option<int>, enabledResolutions: Option<string>,
                          files: LocalFiles): Run
  {
    var create := Exchange(server, history, accessKey, C.CreateVideo, "", CreateVideoRequest(Str(title), collectionId, thumbnailTime));
    if !create.outcome.Returned? then create
    else match GuidOf(create.outcome.value)
      case None => Run(C.TypeError(GuidSite), create.issued)
      case Some(guid) =>
        var upload := UploadWithVideoIdRun(server, history + create.issued, accessKey, guid, path, enabledResolutions, files);
        Run(upload.outcome, create.issued + upload.issued)
  }

  function CaptionRequest(videoId: string, srclang: string, content: seq<bv8>, captionLabel: Value): Request
  {
    Request(POST, "videos/" + videoId + "/captions/" + srclang, [], JsonBody(Requests.CaptionBody(srclang, content, captionLabel)))
  }

  /**
   * addCaption: `file_get_contents` of an unreadable path yields false, which
   * `base64_encode` rejects under strict types before any request is sent.
   */
  function AddCaptionRun(server: Server, history: seq<Request>, accessKey: string, videoId: string, srclang: string,
                         path: string, captionLabel: Value, files: LocalFiles): Run
  {
    if path !in files.readable then Run(C.TypeError("base64_encode"), [])
    else Exchange(server, history, accessKey, C.AddCaption, videoId, CaptionRequest(videoId, srclang, files.readable[path], captionLabel))
  }

  // ---------------------------------------------------------------- properties of the upload workflow

  /** A missing or unopenable file is reported before any request is sent. */
  lemma UploadChecksFileFirst(server: Server, history: seq<Request>, accessKey: string, videoId: string, path: string,
                              enabledResolutions: Option<string>, files: LocalFiles)
    requires path !in files.existing || path !in files.openable
    ensures var run := UploadWithVideoIdRun(server, history, accessKey, videoId, path, enabledResolutions, files);
      && run.issued == []
      && run.outcome == C.Raised(NewBase(if path !in files.existing then FileMissingMessage else FileUnopenableMessage))
  {
  }

  /** Once the file opens: 401 is an authentication error, 404 is VideoNotFound(videoId), 400 is "already uploaded". */
  lemma UploadStatusOrder(server: Server, history: seq<Request>, accessKey: string, videoId: string, path: string,
                          enabledResolutions: Option<string>, files: LocalFiles)
    requires path in files.existing && path in files.openable
    ensures var run := UploadWithVideoIdRun(server, history, accessKey, videoId, path, enabledResolutions, files);
      var status := server(history, UploadRequest(videoId, path, enabledResolutions)).status;
      && run.issued == [UploadRequest(videoId, path, enabledResolutions)]
      && (status == 401 ==> run.outcome == C.Raised(NewAuthentication(accessKey)))
      && (status == 404 ==> run.outcome == C.Raised(NewVideoNotFound(videoId)))
      && (status == 400 ==> run.outcome == C.Raised(NewBase("The requested video was already uploaded")))
  {
    var resp := server(history, UploadRequest(videoId, path, enabledResolutions));
    C.NotFound(C.UploadVideoWithVideoId, videoId, accessKey, resp.body);
    C.BadRequest(C.UploadVideoWithVideoId, videoId, accessKey, resp.body);
  }

  /** uploadVideo first creates the video, sends at most one more request, and never sends a DELETE. */
  lemma UploadVideoNeverRollsBack(server: Server, history: seq<Request>, accessKey: string, title: string, path: string,
                                  collectionId: Option<string>, thumbnailTime: Option<int>, enabledResolutions: Option<string>,
                                  files: LocalFiles)
    ensures var run := UploadVideoRun(server, history, accessKey, title, path, collectionId, thumbnailTime, enabledResolutions, files);
      && 1 <= |run.issued| <= 2
      && run.issued[0] == CreateVideoRequest(Str(title), collectionId, thumbnailTime)
      && (|run.issued| == 2 ==> run.issued[1].verb == PUT)
      && forall i :: 0 <= i < |run.issued| ==> run.issued[i].verb != DELETE
  {
  }

  /**
   * When createVideo returns an object with a guid, uploadVideo uploads to that
   * guid and returns what the upload step returns or raises, not the created object.
   */
  lemma UploadVideoReturnsSecondStep(server: Server, history: seq<Request>, accessKey: string, title: string, path: string,
                                     collectionId: Option<string>, thumbnailTime: Option<int>, enabledResolutions: Option<string>,
                                     files: LocalFiles, guid: string)
    requires var create := CreateVideoRequest(Str(title), collectionId, thumbnailTime);
      server(history, create).status == 200 && GuidOf(server(history, create).body) == Some(guid)
    ensures var create := CreateVideoRequest(Str(title), collectionId, thumbnailTime);
      var run := UploadVideoRun(server, history, accessKey, title, path, collectionId, thumbnailTime, enabledResolutions, files);
      var second := UploadWithVideoIdRun(server, history + [create], accessKey, guid, path, enabledResolutions, files);
      && run.issued == [create] + second.issued
      && run.outcome == second.outcome
  {
  }

  /**
   * The partial failure: the create step succeeded, the upload step got a
   * non-200 answer, and the error raised is the upload step's while the created
   * video is left in place (exactly the two requests were sent).
   */
  lemma UploadVideoPartialFailure(server: Server, history: seq<Request>, accessKey: string, title: string, path: string,
                                  collectionId: Option<string>, thumbnailTime: Option<int>, enabledResolutions: Option<string>,
                                  files: LocalFiles, guid: string)
    requires var create := CreateVideoRequest(Str(title), collectionId, thumbnailTime);
      server(history, create).status == 200 && GuidOf(server(history, create).body) == Some(guid)
    requires path in files.existing && path in files.openable
    requires server(history + [CreateVideoRequest(Str(title), collectionId, thumbnailTime)], UploadRequest(guid, path, enabledResolutions)).status != 200
    ensures var create := CreateVideoRequest(Str(title), collectionId, thumbnailTime);
      var upload := UploadRequest(guid, path, enabledResolutions);
      var run := UploadVideoRun(server, history, accessKey, title, path, collectionId, thumbnailTime, enabledResolutions, files);
      && run.issued == [create, upload]
      && run.outcome.Raised?
      && run.outcome == C.Classify(C.UploadVideoWithVideoId, guid, accessKey, server(history + [create], upload))
  {
    UploadVideoReturnsSecondStep(server, history, accessKey, title, path, collectionId, thumbnailTime, enabledResolutions, files, guid);
  }

  /**
   * uploadVideo checks the local file only after the video was created, so a
   * missing file still leaves a created video behind.
   */
  lemma UploadVideoChecksFileAfterCreate(server: Server, history: seq<Request>, accessKey: string, title: string, path: string,
                                         collectionId: Option<string>, thumbnailTime: Option<int>, enabledResolutions: Option<string>,
                                         files: LocalFiles)
    requires var create := CreateVideoRequest(Str(title), collectionId, thumbnailTime);
      server(history, create).status == 200 && GuidOf(server(history, create).body).Some?
    requires path !in files.existing
    ensures var run := UploadVideoRun(server, history, accessKey, title, path, collectionId, thumbnailTime, enabledResolutions, files);
      && run.issued == [CreateVideoRequest(Str(title), collectionId, thumbnailTime)]
      && run.outcome == C.Raised(NewBase(FileMissingMessage))
  {
  }

  /** A failed create step is raised unchanged and nothing else is sent. */
  lemma UploadVideoCreateFailure(server: Server, history: seq<Request>, accessKey: string, title: string, path: string,
                                 collectionId: Option<string>, thumbnailTime: Option<int>, enabledResolutions: Option<string>,
                                 files: LocalFiles)
    requires server(history, CreateVideoRequest(Str(title), collectionId, thumbnailTime)).status != 200
    ensures var create := CreateVideoRequest(Str(title), collectionId, thumbnailTime);
      var run := UploadVideoRun(server, history, accessKey, title, path, collectionId, thumbnailTime, enabledResolutions, files);
      && run.issued == [create]
      && run.outcome == C.Classify(C.CreateVideo, "", accessKey, server(history, create))
      && run.outcome.Raised?
  {
  }

  /** A created object without a string guid ends in a TypeError, and only the create request was sent. */
  lemma UploadVideoWithoutGuid(server: Server, history: seq<Request>, accessKey: string, title: string, path: string,
                               collectionId: Option<string>, thumbnailTime: Option<int>, enabledResolutions: Option<string>,
                               files: LocalFiles)
    requires var create := CreateVideoRequest(Str(title), collectionId, thumbnailTime);
      server(history, create).status == 200 && GuidOf(server(history, create).body).None?
    ensures var run := UploadVideoRun(server, history, accessKey, title, path, collectionId, thumbnailTime, enabledResolutions, files);
      && run.issued == [CreateVideoRequest(Str(title), collectionId, thumbnailTime)]
      && run.outcome == C.TypeError(GuidSite)
  {
  }

  /** An unreadable caption file ends in a TypeError before any request; otherwise one POST carries its content. */
  lemma AddCaptionReadsFileFirst(server: Server, history: seq<Request>, accessKey: string, videoId: string, srclang: string,
                                 path: string, captionLabel: Value, files: LocalFiles)
    ensures var run := AddCaptionRun(server, history, accessKey, videoId, srclang, path, captionLabel, files);
      && (path !in files.readable ==> run.issued == [] && run.outcome == C.TypeError("base64_encode"))
      && (path in files.readable ==>
            && run.issued == [CaptionRequest(videoId, srclang, files.readable[path], captionLabel)]
            && Get(Requests.CaptionBody(srclang, files.readable[path], captionLabel), "captionsFile") == Some(Base64Of(files.readable[path])))
  {
    if path in files.readable {
      Requests.CaptionBodyShape(srclang, files.readable[path], captionLabel);
    }
  }

  /** fetchVideo's 404 names the source url it was given; there is no video id yet. */
  lemma FetchVideoNotFoundNamesUrl(server: Server, history: seq<Request>, accessKey: string, url: string, req: Request)
    requires server(history, req).status == 404
    ensures Exchange(server, history, accessKey, C.FetchVideo, url, req).outcome == C.Raised(NewVideoNotFound(url))
    ensures StripPrefix(VideoNotFoundPrefix, Exchange(server, history, accessKey, C.FetchVideo, url, req).outcome.error.message) == Some(url)
  {
    C.NotFound(C.FetchVideo, url, accessKey, server(history, req).body);
  }

  /**
   * getVideoStatistics' 404 names the video id given to it. That the request
   * (GET statistics with the caller's query) does not involve the id is stated
   * by the contract of `Client.GetVideoStatistics`, where the id is only the
   * classification subject.
   */
  lemma StatisticsNotFoundNamesVideoId(server: Server, history: seq<Request>, accessKey: string, videoId: string, otherId: string, query: seq<Entry>)
    requires server(history, Request(GET, "statistics", query, NoBody)).status == 404
    ensures Exchange(server, history, accessKey, C.GetVideoStatistics, videoId, Request(GET, "statistics", query, NoBody)).outcome
         == C.Raised(NewVideoNotFound(videoId))
    ensures Exchange(server, history, accessKey, C.GetVideoStatistics, videoId, Request(GET, "statistics", query, NoBody)).issued
         == Exchange(server, history, accessKey, C.GetVideoStatistics, otherId, Request(GET, "statistics", query, NoBody)).issued
  {
    C.NotFound(C.GetVideoStatistics, videoId, accessKey, server(history, Request(GET, "statistics", query, NoBody)).body);
  }

  // ---------------------------------------------------------------- the client

  class Client {
    const apiAccessKey: string
    const streamLibraryId: string
    const apiBaseUrl: string
    const httpClient: Transport

    /** Stores the configuration and creates the transport: no redirects, no HTTP errors, rooted at the library. */
    constructor (apiKey: string, streamLibraryId: string, server: Server)
      ensures apiAccessKey == apiKey && this.streamLibraryId == streamLibraryId
      ensures apiBaseUrl == Requests.ApiBaseUrl
      ensures fresh(httpClient) && httpClient.log == [] && httpClient.server == server
      ensures httpClient.config == Requests.ClientConfig(Requests.ApiBaseUrl, streamLibraryId, apiKey)
    {
      apiAccessKey := apiKey;
      this.streamLibraryId := streamLibraryId;
      apiBaseUrl := Requests.ApiBaseUrl;
      httpClient := new Transport(Requests.ClientConfig(Requests.ApiBaseUrl, streamLibraryId, apiKey), server);
    }

    method ListVideos(search: Option<string> := None, page: int := 1, items: int := 100,
                      collection: Option<string> := None, orderby: Option<string> := None) returns (r: C.Outcome)
      modifies httpClient
      ensures Performed(old(httpClient.log), httpClient.log, r,
        Exchange(httpClient.server, old(httpClient.log), apiAccessKey, C.ListVideos, "",
          Request(GET, "videos", Requests.ListVideosQuery(search, page, items, collection, orderby), NoBody)))
    {
      var query := [Entry("page", Int(page)), Entry("itemsPerPage", Int(items))];
      if Requests.Truthy(Requests.Nullable(search)) {
        query := query + [Entry("search", Str(search.value))];
      }
      ghost var pages := [Entry("page", Int(page)), Entry("itemsPerPage", Int(items))];
      assert query == pages + Requests.Optional("search", Requests.Nullable(search));
      if Requests.Truthy(Requests.Nullable(collection)) {
        query := query + [Entry("collection", Str(collection.value))];
      }
      assert query == pages + Requests.Optional("search", Requests.Nullable(search))
                            + Requests.Optional("collection", Requests.Nullable(collection));
      if Requests.Truthy(Requests.Nullable(orderby)) {
        query := query + [Entry("orderBy", Str(orderby.value))];
      }
      assert query == Requests.ListVideosQuery(search, page, items, collection, orderby);
      var response := httpClient.Send(Request(GET, "videos", query, NoBody));
      r := C.Classify(C.ListVideos, "", apiAccessKey, response);
    }

    method GetVideo(videoId: string) returns (r: C.Outcome)
      modifies httpClient
      ensures Performed(old(httpClient.log), httpClient.log, r,
        Exchange(httpClient.server, old(httpClient.log), apiAccessKey, C.GetVideo, videoId,
          Request(GET, "videos/" + videoId, [], NoBody)))
    {
      var response := httpClient.Send(Request(GET, "videos/" + videoId, [], NoBody));
      r := C.Classify(C.GetVideo, videoId, apiAccessKey, response);
    }

    method UpdateVideo(videoId: string, body: seq<Entry>) returns (r: C.Outcome)
      modifies httpClient
      ensures Performed(old(httpClient.log), httpClient.log, r,
        Exchange(httpClient.server, old(httpClient.log), apiAccessKey, C.UpdateVideo, videoId,
          Request(PUT, "videos/" + videoId, [], JsonBody(body))))
    {
      var response := httpClient.Send(Request(PUT, "videos/" + videoId, [], JsonBody(body)));
      r := C.Classify(C.UpdateVideo, videoId, apiAccessKey, response);
    }

    method DeleteVideo(videoId: string) returns (r: C.Outcome)
      modifies httpClient
      ensures Performed(old(httpClient.log), httpClient.log, r,
        Exchange(httpClient.server, old(httpClient.log), apiAccessKey, C.DeleteVideo, videoId,
          Request(DELETE, "videos/" + videoId, [], NoBody)))
    {
      var response := httpClient.Send(Request(DELETE, "videos/" + videoId, [], NoBody));
      r := C.Classify(C.DeleteVideo, videoId, apiAccessKey, response);
    }

    /** `$title` is untyped in the source, so it is any PHP value here. */
    method CreateVideo(title: Value, collectionId: Option<string> := None, thumbnailTime: Option<int> := None) returns (r: C.Outcome)
      modifies httpClient
      ensures Performed(old(httpClient.log), httpClient.log, r,
        Exchange(httpClient.server, old(httpClient.log), apiAccessKey, C.CreateVideo, "",
          CreateVideoRequest(title, collectionId, thumbnailTime)))
    {
      var response := httpClient.Send(CreateVideoRequest(title, collectionId, thumbnailTime));
      r := C.Classify(C.CreateVideo, "", apiAccessKey, response);
    }

    method UploadVideoWithVideoId(videoId: string, path: string, files: LocalFiles, enabledResolutions: Option<string> := None)
      returns (r: C.Outcome)
      modifies httpClient
      ensures Performed(old(httpClient.log), httpClient.log, r,
        UploadWithVideoIdRun(httpClient.server, old(httpClient.log), apiAccessKey, videoId, path, enabledResolutions, files))
    {
      if path !in files.existing {
        r := C.Raised(NewBase(FileMissingMessage));
        return;
      }
      if path !in files.openable {
        r := C.Raised(NewBase(FileUnopenableMessage));
        return;
      }
      var query := [];
      if Requests.Truthy(Requests.Nullable(enabledResolutions)) {
        query := query + [Entry("enabledResolutions", Str(enabledResolutions.value))];
      }
      assert query == Requests.UploadQuery(enabledResolutions);
      var response := httpClient.Send(Request(PUT, "videos/" + videoId, query, FileStream(path)));
      r := C.Classify(C.UploadVideoWithVideoId, videoId, apiAccessKey, response);
    }

    method UploadVideo(title: string, path: string, files: LocalFiles, collectionId: Option<string> := None,
                       thumbnailTime: Option<int> := None, enabledResolutions: Option<string> := None) returns (r: C.Outcome)
      modifies httpClient
      ensures Performed(old(httpClient.log), httpClient.log, r,
        UploadVideoRun(httpClient.server, old(httpClient.log), apiAccessKey, title, path, collectionId, thumbnailTime,
                       enabledResolutions, files))
    {
      var videoObject := CreateVideo(Str(title), collectionId, thumbnailTime);
      if !videoObject.Returned? {
        r := videoObject;
        return;
      }
      match GuidOf(videoObject.value)
      case None =>
        r := C.TypeError(GuidSite);
      case Some(guid) =>
        r := UploadVideoWithVideoId(guid, path, files, enabledResolutions);
    }

    method SetVideoThumbnail(videoId: string, url: string) returns (r: C.Outcome)
      modifies httpClient
      ensures Performed(old(httpClient.log), httpClient.log, r,
        Exchange(httpClient.server, old(httpClient.log), apiAccessKey, C.SetVideoThumbnail, videoId,
          Request(POST, "videos/" + videoId + "/thumbnail", [Entry("thumbnailUrl", Str(url))], NoBody)))
    {
      var response := httpClient.Send(Request(POST, "videos/" + videoId + "/thumbnail", [Entry("thumbnailUrl", Str(url))], NoBody));
      r := C.Classify(C.SetVideoThumbnail, videoId, apiAccessKey, response);
    }

    method GetVideoHeatmap(videoId: string) returns (r: C.Outcome)
      modifies httpClient
      ensures Performed(old(httpClient.log), httpClient.log, r,
        Exchange(httpClient.server, old(httpClient.log), apiAccessKey, C.GetVideoHeatmap, videoId,
          Request(GET, "videos/" + videoId + "/heatmap", [], NoBody)))
    {
      var response := httpClient.Send(Request(GET, "videos/" + videoId + "/heatmap", [], NoBody));
      r := C.Classify(C.GetVideoHeatmap, videoId, apiAccessKey, response);
    }

    method GetVideoPlayData(videoId: string, token: Option<string> := None, expires: Option<int> := None) returns (r: C.Outcome)
      modifies httpClient
      ensures Performed(old(httpClient.log), httpClient.log, r,
        Exchange(httpClient.server, old(httpClient.log), apiAccessKey, C.GetVideoPlayData, videoId,
          Request(GET, "videos/" + videoId + "/play", Requests.PlayDataQuery(token, expires), NoBody)))
    {
      var query := [];
      if Requests.Truthy(Requests.Nullable(token)) {
        query := query + [Entry("token", Str(token.value))];
      }
      assert query == [] + Requests.Optional("token", Requests.Nullable(token));
      if Requests.Truthy(Requests.NullableInt(expires)) {
        query := query + [Entry("expires", Int(expires.value))];
      }
      assert query == Requests.PlayDataQuery(token, expires);
      var response := httpClient.Send(Request(GET, "videos/" + videoId + "/play", query, NoBody));
      r := C.Classify(C.GetVideoPlayData, videoId, apiAccessKey, response);
    }

    /** The video id is not part of the request; it only names the video in the 404 exception. */
    method GetVideoStatistics(videoId: string, query: seq<Entry>) returns (r: C.Outcome)
      modifies httpClient
      ensures Performed(old(httpClient.log), httpClient.log, r,
        Exchange(httpClient.server, old(httpClient.log), apiAccessKey, C.GetVideoStatistics, videoId,
          Request(GET, "statistics", query, NoBody)))
    {
      var response := httpClient.Send(Request(GET, "statistics", query, NoBody));
      r := C.Classify(C.GetVideoStatistics, videoId, apiAccessKey, response);
    }

    method ReencodeVideo(videoId: string) returns (r: C.Outcome)
      modifies httpClient
      ensures Performed(old(httpClient.log), httpClient.log, r,
        Exchange(httpClient.server, old(httpClient.log), apiAccessKey, C.ReencodeVideo, videoId,
          Request(POST, "videos/" + videoId + "/reencode", [], NoBody)))
    {
      var response := httpClient.Send(Request(POST, "videos/" + videoId + "/reencode", [], NoBody));
      r := C.Classify(C.ReencodeVideo, videoId, apiAccessKey, response);
    }

    method RepackageVideo(videoId: string, keepOriginalFiles: bool := true) returns (r: C.Outcome)
      modifies httpClient
      ensures Performed(old(httpClient.log), httpClient.log, r,
        Exchange(httpClient.server, old(httpClient.log), apiAccessKey, C.RepackageVideo, videoId,
          Request(GET, "videos/" + videoId + "/repackage", Requests.RepackageQuery(keepOriginalFiles), NoBody)))
    {
      var response := httpClient.Send(Request(GET, "videos/" + videoId + "/repackage", Requests.RepackageQuery(keepOriginalFiles), NoBody));
      r := C.Classify(C.RepackageVideo, videoId, apiAccessKey, response);
    }

    /** A 404 names the source url: no video id exists yet. */
    method FetchVideo(url: string, title: Option<string> := None, collectionId: Option<string> := None,
                      thumbnailTime: Option<int> := None, headers: Option<seq<Entry>> := None) returns (r: C.Outcome)
      modifies httpClient
      ensures Performed(old(httpClient.log), httpClient.log, r,
        Exchange(httpClient.server, old(httpClient.log), apiAccessKey, C.FetchVideo, url,
          Request(POST, "videos/fetch", Requests.FetchQuery(collectionId, thumbnailTime), JsonBody(Requests.FetchBody(url, title, headers)))))
    {
      var query := [];
      if Requests.Truthy(Requests.Nullable(collectionId)) {
        query := query + [Entry("collectionId", Str(collectionId.value))];
      }
      assert query == [] + Requests.Optional("collectionId", Requests.Nullable(collectionId));
      if Requests.Truthy(Requests.NullableInt(thumbnailTime)) {
        query := query + [Entry("thumbnailTime", Int(thumbnailTime.value))];
      }
      assert query == Requests.FetchQuery(collectionId, thumbnailTime);
      var body := [Entry("url", Str(url))];
      if Requests.Truthy(Requests.Nullable(title)) {
        body := body + [Entry("title", Str(title.value))];
      }
      assert body == [Entry("url", Str(url))] + Requests.Optional("title", Requests.Nullable(title));
      if Requests.Truthy(Requests.NullableArray(headers)) {
        body := body + [Entry("headers", Array(headers.value))];
      }
      assert body == Requests.FetchBody(url, title, headers);
      var response := httpClient.Send(Request(POST, "videos/fetch", query, JsonBody(body)));
      r := C.Classify(C.FetchVideo, url, apiAccessKey, response);
    }

    /** `$label` is untyped in the source, so it is any PHP value here. */
    method AddCaption(videoId: string, srclang: string, path: string, files: LocalFiles, captionLabel: Value := Null)
      returns (r: C.Outcome)
      modifies httpClient
      ensures Performed(old(httpClient.log), httpClient.log, r,
        AddCaptionRun(httpClient.server, old(httpClient.log), apiAccessKey, videoId, srclang, path, captionLabel, files))
    {
      if path !in files.readable {
        r := C.TypeError("base64_encode");
        return;
      }
      var body := [Entry("srclang", Str(srclang)), Entry("captionsFile", Base64Of(files.readable[path]))];
      if Requests.Truthy(captionLabel) {
        body := body + [Entry("label", captionLabel)];
      }
      assert body == Requests.CaptionBody(srclang, files.readable[path], captionLabel);
      var response := httpClient.Send(Request(POST, "videos/" + videoId + "/captions/" + srclang, [], JsonBody(body)));
      r := C.Classify(C.AddCaption, videoId, apiAccessKey, response);
    }

    method DeleteCaption(videoId: string, srclang: string) returns (r: C.Outcome)
      modifies httpClient
      ensures Performed(old(httpClient.log), httpClient.log, r,
        Exchange(httpClient.server, old(httpClient.log), apiAccessKey, C.DeleteCaption, videoId,
          Request(DELETE, "videos/" + videoId + "/captions/" + srclang, [], NoBody)))
    {
      var response := httpClient.Send(Request(DELETE, "videos/" + videoId + "/captions/" + srclang, [], NoBody));
      r := C.Classify(C.DeleteCaption, videoId, apiAccessKey, response);
    }

    method TranscribeVideo(videoId: string, language: string, force: bool := false) returns (r: C.Outcome)
      modifies httpClient
      ensures Performed(old(httpClient.log), httpClient.log, r,
        Exchange(httpClient.server, old(httpClient.log), apiAccessKey, C.TranscribeVideo, videoId,
          Request(POST, "videos/" + videoId + "/transcribe", Requests.TranscribeQuery(language, force), NoBody)))
    {
      var response := httpClient.Send(Request(POST, "videos/" + videoId + "/transcribe", Requests.TranscribeQuery(language, force), NoBody));
      r := C.Classify(C.TranscribeVideo, videoId, apiAccessKey, response);
    }

    method ListCollections(search: Option<string> := None, page: int := 1, items: int := 100, orderby: string := "date",
                           includeThumbnails: bool := false) returns (r: C.Outcome)
      modifies httpClient
      ensures Performed(old(httpClient.log), httpClient.log, r,
        Exchange(httpClient.server, old(httpClient.log), apiAccessKey, C.ListCollections, "",
          Request(GET, "collections", Requests.ListCollectionsQuery(search, page, items, orderby, includeThumbnails), NoBody)))
    {
      var query := [ Entry("page", Int(page)), Entry("itemsPerPage", Int(items)),
                     Entry("includeThumbnails", Str(if includeThumbnails then "true" else "false")), Entry("orderBy", Str(orderby)) ];
      if Requests.Truthy(Requests.Nullable(search)) {
        query := query + [Entry("search", Str(search.value))];
      }
      assert query == Requests.ListCollectionsQuery(search, page, items, orderby, includeThumbnails);
      var response := httpClient.Send(Request(GET, "collections", query, NoBody));
      r := C.Classify(C.ListCollections, "", apiAccessKey, response);
    }

    method GetCollection(collectionId: string, includeThumbnails: bool := false) returns (r: C.Outcome)
      modifies httpClient
      ensures Performed(old(httpClient.log), httpClient.log, r,
        Exchange(httpClient.server, old(httpClient.log), apiAccessKey, C.GetCollection, collectionId,
          Request(GET, "collections/" + collectionId, Requests.GetCollectionQuery(includeThumbnails), NoBody)))
    {
      var response := httpClient.Send(Request(GET, "collections/" + collectionId, Requests.GetCollectionQuery(includeThumbnails), NoBody));
      r := C.Classify(C.GetCollection, collectionId, apiAccessKey, response);
    }

    method CreateCollection(name: string) returns (r: C.Outcome)
      modifies httpClient
      ensures Performed(old(httpClient.log), httpClient.log, r,
        Exchange(httpClient.server, old(httpClient.log), apiAccessKey, C.CreateCollection, "",
          Request(POST, "collections", [], JsonBody([Entry("name", Str(name))]))))
    {
      var response := httpClient.Send(Request(POST, "collections", [], JsonBody([Entry("name", Str(name))])));
      r := C.Classify(C.CreateCollection, "", apiAccessKey, response);
    }

    method UpdateCollection(collectionId: string, name: string) returns (r: C.Outcome)
      modifies httpClient
      ensures Performed(old(httpClient.log), httpClient.log, r,
        Exchange(httpClient.server, old(httpClient.log), apiAccessKey, C.UpdateCollection, collectionId,
          Request(PUT, "collections/" + collectionId, [], JsonBody([Entry("name", Str(name))]))))
    {
      var response := httpClient.Send(Request(PUT, "collections/" + collectionId, [], JsonBody([Entry("name", Str(name))])));
      r := C.Classify(C.UpdateCollection, collectionId, apiAccessKey, response);
    }

    method DeleteCollection(collectionId: string) returns (r: C.Outcome)
      modifies httpClient
      ensures Performed(old(httpClient.log), httpClient.log, r,
        Exchange(httpClient.server, old(httpClient.log), apiAccessKey, C.DeleteCollection, collectionId,
          Request(DELETE, "collections/" + collectionId, [], NoBody)))
    {
      var response := httpClient.Send(Request(DELETE, "collections/" + collectionId, [], NoBody));
      r := C.Classify(C.DeleteCollection, collectionId, apiAccessKey, response);
    }
  }
}
