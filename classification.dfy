/**
 * How the client turns a response into a result. Every operation runs the same
 * chain: 401 raises AuthenticationException with the configured access key, 200
 * returns the decoded body, then the operation's own 400/404 cases are tried in
 * the order the client writes them, and any other status raises a base exception
 * whose message names the operation. The per-operation part of the chain is a
 * table: StatusCases and FallbackMessage.
 */
module Classification {
  import opened Wrappers
  import opened Http
  import opened Exceptions

  /** The client's operations, one per public method that talks to the service. */
  datatype Operation =
    | ListVideos | GetVideo | UpdateVideo | DeleteVideo | CreateVideo | UploadVideoWithVideoId
    | SetVideoThumbnail | GetVideoHeatmap | GetVideoPlayData | GetVideoStatistics | ReencodeVideo
    | RepackageVideo | FetchVideo | AddCaption | DeleteCaption | TranscribeVideo
    | ListCollections | GetCollection | CreateCollection | UpdateCollection | DeleteCollection

  /**
   * What a call of an operation ends in: the decoded body it returns, the
   * exception it throws, or a PHP TypeError, which `declare(strict_types=1)` and
   * PHP 8 raise when a value of the wrong type is used; `site` names the
   * expression that raises it.
   */
  datatype Outcome = Returned(value: Json) | Raised(error: Exception) | TypeError(site: string)

  /** One operation-specific branch: a status and the exception it raises. */
  datatype StatusCase = StatusCase(status: int, error: Exception)

  /**
   * The operation-specific branches checked after 401 and 200, in source order.
   * `subject` is the argument the 404 exception names: the video id, the source
   * url of fetchVideo, or the collection id.
   */
  function StatusCases(op: Operation, subject: string): seq<StatusCase>
  {
    match op
    case ListVideos => []
    case GetVideo => []
    case UpdateVideo => []
    case DeleteVideo => [StatusCase(404, NewVideoNotFound(subject))]
    case CreateVideo => []
    case UploadVideoWithVideoId =>
      [StatusCase(404, NewVideoNotFound(subject)), StatusCase(400, NewBase("The requested video was already uploaded"))]
    case SetVideoThumbnail => [StatusCase(404, NewVideoNotFound(subject))]
    case GetVideoHeatmap => [StatusCase(404, NewVideoNotFound(subject))]
    case GetVideoPlayData => [StatusCase(404, NewVideoNotFound(subject))]
    case GetVideoStatistics => [StatusCase(404, NewVideoNotFound(subject))]
    case ReencodeVideo => [StatusCase(404, NewVideoNotFound(subject))]
    case RepackageVideo =>
      [StatusCase(400, NewBase("Enterprise DRM is disabled for the library, repackaging not available")),
       StatusCase(404, NewVideoNotFound(subject))]
    case FetchVideo => [StatusCase(400, NewBase("Failed fetching the video")), StatusCase(404, NewVideoNotFound(subject))]
    case AddCaption => [StatusCase(400, NewBase("Failed uploading the captions")), StatusCase(404, NewVideoNotFound(subject))]
    case DeleteCaption => [StatusCase(400, NewBase("Failed deleting the caption")), StatusCase(404, NewVideoNotFound(subject))]
    case TranscribeVideo =>
      [StatusCase(400, NewBase("Invalid request for transcription queue")), StatusCase(404, NewVideoNotFound(subject))]
    case ListCollections => []
    case GetCollection => [StatusCase(404, NewCollectionNotFound(subject))]
    case CreateCollection => []
    case UpdateCollection => [StatusCase(404, NewCollectionNotFound(subject))]
    case DeleteCollection => [StatusCase(404, NewCollectionNotFound(subject))]
  }

  /** The message of the exception thrown when no branch matches. */
  function FallbackMessage(op: Operation): string
  {
    match op
    case ListVideos => "Could not list videos."
    case GetVideo => "Could not get video."
    case UpdateVideo => "Could not update video."
    case DeleteVideo => "Could not delete video."
    case CreateVideo => "Could not create video."
    case UploadVideoWithVideoId => "Could not upload video."
    case SetVideoThumbnail => "Could not set video thumbnail."
    case GetVideoHeatmap => "Could not get video heatmap."
    case GetVideoPlayData => "Could not get video statistics."
    case GetVideoStatistics => "Could not get video statistics."
    case ReencodeVideo => "Could not reencode video."
    case RepackageVideo => "Could not repackage video."
    case FetchVideo => "Could not fetch video."
    case AddCaption => "Could not add caption."
    case DeleteCaption => "Could not delete caption."
    case TranscribeVideo => "Could not transcribe video."
    case ListCollections => "Could not list collections."
    case GetCollection => "Could not get collection."
    case CreateCollection => "Could not create collection."
    case UpdateCollection => "Could not update collection."
    case DeleteCollection => "Could not delete collection."
  }

  /** The exception of the first branch whose status matches, if any. */
  function FirstMatch(cases: seq<StatusCase>, status: int): (r: Option<Exception>)
    ensures r.None? <==> forall i :: 0 <= i < |cases| ==> cases[i].status != status
    ensures r.Some? ==> exists i :: 0 <= i < |cases| && cases[i] == StatusCase(status, r.value)
                                   && forall j :: 0 <= j < i ==> cases[j].status != status
  {
    FirstMatchFrom(cases, status, 0)
  }

  /** The exception of the first branch at or after index `from` whose status matches. */
  function FirstMatchFrom(cases: seq<StatusCase>, status: int, from: nat): (r: Option<Exception>)
    requires from <= |cases|
    ensures r.None? <==> forall i :: from <= i < |cases| ==> cases[i].status != status
    ensures r.Some? ==> exists i :: from <= i < |cases| && cases[i] == StatusCase(status, r.value)
                                   && forall j :: from <= j < i ==> cases[j].status != status
    decreases |cases| - from
  {
    if from == |cases| then None
    else if cases[from].status == status then Some(cases[from].error)
    else FirstMatchFrom(cases, status, from + 1)
  }

  /** The branch at index i is taken when no earlier branch has its status. */
  lemma FirstMatchAt(cases: seq<StatusCase>, status: int, i: nat)
    requires i < |cases| && cases[i].status == status
    requires forall j :: 0 <= j < i ==> cases[j].status != status
    ensures FirstMatch(cases, status) == Some(cases[i].error)
  {
    var k :| 0 <= k < |cases| && cases[k] == StatusCase(status, FirstMatch(cases, status).value)
             && forall j :: 0 <= j < k ==> cases[j].status != status;
    assert k == i;
  }

  /** The status chain every operation runs on its response. */
  function Classify(op: Operation, subject: string, accessKey: string, resp: Response): (r: Outcome)
    ensures resp.status == 401 ==> r == Raised(NewAuthentication(accessKey))
    ensures resp.status == 200 ==> r == Returned(resp.body)
    ensures r.Returned? <==> resp.status == 200
    ensures !r.TypeError?
  {
    if resp.status == 401 then Raised(NewAuthentication(accessKey))
    else if resp.status == 200 then Returned(resp.body)
    else match FirstMatch(StatusCases(op, subject), resp.status)
      case Some(e) => Raised(e)
      case None => Raised(NewBase(FallbackMessage(op)))
  }

  // ---------------------------------------------------------------- the table, checked against a reference

  /**
   * The operations whose 404 means "video not found": every video-, caption- and
   * fetch-scoped operation except listVideos, getVideo, updateVideo and createVideo.
   */
  predicate NotFoundMeansVideo(op: Operation)
  {
    op in {DeleteVideo, UploadVideoWithVideoId, SetVideoThumbnail, GetVideoHeatmap, GetVideoPlayData,
           GetVideoStatistics, ReencodeVideo, RepackageVideo, FetchVideo, AddCaption, DeleteCaption, TranscribeVideo}
  }

  /** The operations whose 404 means "collection not found". */
  predicate NotFoundMeansCollection(op: Operation)
  {
    op in {GetCollection, UpdateCollection, DeleteCollection}
  }

  /** The message an operation gives a 400, for the operations that treat 400 specially. */
  function BadRequestMessage(op: Operation): Option<string>
  {
    match op
    case UploadVideoWithVideoId => Some("The requested video was already uploaded")
    case RepackageVideo => Some("Enterprise DRM is disabled for the library, repackaging not available")
    case FetchVideo => Some("Failed fetching the video")
    case AddCaption => Some("Failed uploading the captions")
    case DeleteCaption => Some("Failed deleting the caption")
    case TranscribeVideo => Some("Invalid request for transcription queue")
    case _ => None
  }

  /** The operations whose only special case is a 404. */
  predicate OnlyNotFound(op: Operation)
  {
    op in {DeleteVideo, SetVideoThumbnail, GetVideoHeatmap, GetVideoPlayData, GetVideoStatistics, ReencodeVideo,
           GetCollection, UpdateCollection, DeleteCollection}
  }

  /** The operations that check 400 before 404. */
  predicate BadRequestFirst(op: Operation)
  {
    op in {RepackageVideo, FetchVideo, AddCaption, DeleteCaption, TranscribeVideo}
  }

  /** The exception an operation's 404 branch raises. */
  function NotFoundError(op: Operation, subject: string): Exception
  {
    if NotFoundMeansCollection(op) then NewCollectionNotFound(subject) else NewVideoNotFound(subject)
  }

  /** The table, one group of operations at a time. */
  lemma {:induction false} CasesOfOnlyNotFound(op: Operation, subject: string)
    requires OnlyNotFound(op)
    ensures StatusCases(op, subject) == [StatusCase(404, NotFoundError(op, subject))]
    ensures NotFoundMeansVideo(op) != NotFoundMeansCollection(op) && BadRequestMessage(op).None?
  {
    match op
    case DeleteVideo | SetVideoThumbnail | GetVideoHeatmap | GetVideoPlayData | GetVideoStatistics | ReencodeVideo =>
    case GetCollection | UpdateCollection | DeleteCollection =>
  }

  lemma {:induction false} CasesOfBadRequestFirst(op: Operation, subject: string)
    requires BadRequestFirst(op)
    ensures BadRequestMessage(op).Some?
    ensures StatusCases(op, subject) == [StatusCase(400, NewBase(BadRequestMessage(op).value)), StatusCase(404, NewVideoNotFound(subject))]
    ensures NotFoundMeansVideo(op) && !NotFoundMeansCollection(op)
  {
    match op
    case RepackageVideo =>
    case FetchVideo =>
    case AddCaption =>
    case DeleteCaption =>
    case TranscribeVideo =>
  }

  lemma {:induction false} CasesOfUpload(subject: string)
    ensures StatusCases(UploadVideoWithVideoId, subject)
         == [StatusCase(404, NewVideoNotFound(subject)), StatusCase(400, NewBase(BadRequestMessage(UploadVideoWithVideoId).value))]
    ensures NotFoundMeansVideo(UploadVideoWithVideoId) && !NotFoundMeansCollection(UploadVideoWithVideoId)
  {
  }

  lemma {:induction false} CasesOfUnchecked(op: Operation, subject: string)
    requires !OnlyNotFound(op) && !BadRequestFirst(op) && op != UploadVideoWithVideoId
    ensures StatusCases(op, subject) == []
    ensures !NotFoundMeansVideo(op) && !NotFoundMeansCollection(op) && BadRequestMessage(op).None?
  {
    match op
    case ListVideos | GetVideo | UpdateVideo | CreateVideo | ListCollections | CreateCollection =>
  }

  /** No branch of the table can shadow 401 or 200: every special case is a 400 or a 404, and none repeats. */
  lemma {:induction false} StatusCasesAreClientErrors(op: Operation, subject: string)
    ensures forall i :: 0 <= i < |StatusCases(op, subject)| ==> StatusCases(op, subject)[i].status in {400, 404}
    ensures forall i, j :: 0 <= i < j < |StatusCases(op, subject)| ==> StatusCases(op, subject)[i].status != StatusCases(op, subject)[j].status
  {
    if OnlyNotFound(op) {
      CasesOfOnlyNotFound(op, subject);
    } else if BadRequestFirst(op) {
      CasesOfBadRequestFirst(op, subject);
    } else if op == UploadVideoWithVideoId {
      CasesOfUpload(subject);
    } else {
      CasesOfUnchecked(op, subject);
    }
  }

  /** 401 comes first: whatever the body and whatever special cases the operation has. */
  lemma AuthenticationCheckedFirst(op: Operation, subject: string, accessKey: string, body: Json)
    ensures Classify(op, subject, accessKey, Response(401, body)) == Raised(NewAuthentication(accessKey))
    ensures AccessKeyOf(Classify(op, subject, accessKey, Response(401, body)).error.message) == Some(accessKey)
  {
  }

  /** A 404 raises VideoNotFound or CollectionNotFound naming the subject, or the operation's generic message. */
  lemma {:induction false} NotFound(op: Operation, subject: string, accessKey: string, body: Json)
    ensures var r := Classify(op, subject, accessKey, Response(404, body));
      && (NotFoundMeansVideo(op) ==> r == Raised(NewVideoNotFound(subject)))
      && (NotFoundMeansCollection(op) ==> r == Raised(NewCollectionNotFound(subject)))
      && (!NotFoundMeansVideo(op) && !NotFoundMeansCollection(op) ==> r == Raised(NewBase(FallbackMessage(op))))
  {
    var resp := Response(404, body);
    if OnlyNotFound(op) {
      CasesOfOnlyNotFound(op, subject);
      ClassifyAt(op, subject, accessKey, resp, 0);
    } else if BadRequestFirst(op) {
      CasesOfBadRequestFirst(op, subject);
      ClassifyAt(op, subject, accessKey, resp, 1);
    } else if op == UploadVideoWithVideoId {
      CasesOfUpload(subject);
      ClassifyAt(op, subject, accessKey, resp, 0);
    } else {
      CasesOfUnchecked(op, subject);
      ClassifyUnmatched(op, subject, accessKey, resp);
    }
  }

  /** A 400 raises the operation's own message where it has one, and the generic message otherwise. */
  lemma {:induction false} BadRequest(op: Operation, subject: string, accessKey: string, body: Json)
    ensures var r := Classify(op, subject, accessKey, Response(400, body));
      r == Raised(NewBase(if BadRequestMessage(op).Some? then BadRequestMessage(op).value else FallbackMessage(op)))
  {
    var resp := Response(400, body);
    if OnlyNotFound(op) {
      CasesOfOnlyNotFound(op, subject);
      ClassifyUnmatched(op, subject, accessKey, resp);
    } else if BadRequestFirst(op) {
      CasesOfBadRequestFirst(op, subject);
      ClassifyAt(op, subject, accessKey, resp, 0);
    } else if op == UploadVideoWithVideoId {
      CasesOfUpload(subject);
      ClassifyAt(op, subject, accessKey, resp, 1);
    } else {
      CasesOfUnchecked(op, subject);
      ClassifyUnmatched(op, subject, accessKey, resp);
    }
  }

  /** A status other than 401 and 200 takes the first table branch with that status. */
  lemma {:induction false} ClassifyAt(op: Operation, subject: string, accessKey: string, resp: Response, i: nat)
    requires resp.status != 401 && resp.status != 200
    requires i < |StatusCases(op, subject)| && StatusCases(op, subject)[i].status == resp.status
    requires forall j :: 0 <= j < i ==> StatusCases(op, subject)[j].status != resp.status
    ensures Classify(op, subject, accessKey, resp) == Raised(StatusCases(op, subject)[i].error)
  {
    FirstMatchAt(StatusCases(op, subject), resp.status, i);
  }

  /** A status other than 401 and 200 that no table branch has raises the generic message. */
  lemma {:induction false} ClassifyUnmatched(op: Operation, subject: string, accessKey: string, resp: Response)
    requires resp.status != 401 && resp.status != 200
    requires forall j :: 0 <= j < |StatusCases(op, subject)| ==> StatusCases(op, subject)[j].status != resp.status
    ensures Classify(op, subject, accessKey, resp) == Raised(NewBase(FallbackMessage(op)))
  {
  }

  /** Any status other than 200, 400, 401 and 404 raises the operation's generic message. */
  lemma {:induction false} UnmappedStatus(op: Operation, subject: string, accessKey: string, resp: Response)
    requires resp.status !in {200, 400, 401, 404}
    ensures Classify(op, subject, accessKey, resp) == Raised(NewBase(FallbackMessage(op)))
  {
    StatusCasesAreClientErrors(op, subject);
  }

  /**
   * The length of a generic message and its letters at offsets 10 and 12, the
   * first and third letters after "Could not ".
   */
  function Signature(m: string): (int, char, char)
  {
    if |m| > 12 then (|m|, m[10], m[12]) else (|m|, ' ', ' ')
  }

  /**
   * Reads the operation back from its generic message; getVideoPlayData's message
   * reads as getVideoStatistics. The signature already tells the messages apart,
   * and the candidate is confirmed against the message itself. A plain chain
   * `if m == FallbackMessage(ListVideos) then ... else if ...` says the same, but
   * proving its round trip makes the solver separate twenty string literals
   * character by character for each operation, and the solver runs out of
   * resources on it; the signature compares one integer and two characters.
   */
  function OperationOfFallback(m: string): (r: Option<Operation>)
    ensures r.Some? ==> FallbackMessage(r.value) == m
  {
    var candidate :=
      if Signature(m) == (22, 'l', 's') then Some(ListVideos)
      else if Signature(m) == (20, 'g', 't') then Some(GetVideo)
      else if Signature(m) == (23, 'u', 'd') then Some(UpdateVideo)
      else if Signature(m) == (23, 'd', 'l') then Some(DeleteVideo)
      else if Signature(m) == (23, 'c', 'e') then Some(CreateVideo)
      else if Signature(m) == (23, 'u', 'l') then Some(UploadVideoWithVideoId)
      else if Signature(m) == (30, 's', 't') then Some(SetVideoThumbnail)
      else if Signature(m) == (28, 'g', 't') then Some(GetVideoHeatmap)
      else if Signature(m) == (31, 'g', 't') then Some(GetVideoStatistics)
      else if Signature(m) == (25, 'r', 'e') then Some(ReencodeVideo)
      else if Signature(m) == (26, 'r', 'p') then Some(RepackageVideo)
      else if Signature(m) == (22, 'f', 't') then Some(FetchVideo)
      else if Signature(m) == (22, 'a', 'd') then Some(AddCaption)
      else if Signature(m) == (25, 'd', 'l') then Some(DeleteCaption)
      else if Signature(m) == (27, 't', 'a') then Some(TranscribeVideo)
      else if Signature(m) == (27, 'l', 's') then Some(ListCollections)
      else if Signature(m) == (25, 'g', 't') then Some(GetCollection)
      else if Signature(m) == (28, 'c', 'e') then Some(CreateCollection)
      else if Signature(m) == (28, 'u', 'd') then Some(UpdateCollection)
      else if Signature(m) == (28, 'd', 'l') then Some(DeleteCollection)
      else None;
    if candidate.Some? && FallbackMessage(candidate.value) == m then candidate else None
  }

  /** Every generic message reads back as its operation, except getVideoPlayData's. */
  lemma {:induction false} FallbackRoundTrip(op: Operation)
    ensures OperationOfFallback(FallbackMessage(op)) == Some(if op == GetVideoPlayData then GetVideoStatistics else op)
  {
    if op in {ListVideos, GetVideo, UpdateVideo, DeleteVideo, CreateVideo, UploadVideoWithVideoId, SetVideoThumbnail,
              GetVideoHeatmap, GetVideoPlayData, GetVideoStatistics} {
      FallbackRoundTripVideos(op);
    } else {
      FallbackRoundTripOthers(op);
    }
  }

  lemma {:induction false} FallbackRoundTripVideos(op: Operation)
    requires op in {ListVideos, GetVideo, UpdateVideo, DeleteVideo, CreateVideo, UploadVideoWithVideoId, SetVideoThumbnail,
                    GetVideoHeatmap, GetVideoPlayData, GetVideoStatistics}
    ensures OperationOfFallback(FallbackMessage(op)) == Some(if op == GetVideoPlayData then GetVideoStatistics else op)
  {
  }

  lemma {:induction false} FallbackRoundTripOthers(op: Operation)
    requires op !in {ListVideos, GetVideo, UpdateVideo, DeleteVideo, CreateVideo, UploadVideoWithVideoId, SetVideoThumbnail,
                     GetVideoHeatmap, GetVideoPlayData, GetVideoStatistics}
    ensures OperationOfFallback(FallbackMessage(op)) == Some(op)
  {
  }

  /**
   * The generic message names the operation: no two operations share one, except
   * getVideoPlayData, which reuses getVideoStatistics' message.
   */
  lemma {:induction false} FallbackNamesTheOperation(a: Operation, b: Operation)
    requires a != b && FallbackMessage(a) == FallbackMessage(b)
    ensures {a, b} == {GetVideoPlayData, GetVideoStatistics}
  {
    FallbackRoundTrip(a);
    FallbackRoundTrip(b);
  }

  lemma PlayDataReusesStatisticsMessage()
    ensures FallbackMessage(GetVideoPlayData) == FallbackMessage(GetVideoStatistics) == "Could not get video statistics."
  {
  }
}
