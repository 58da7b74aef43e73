# Bunny Stream PHP client, modelled in Dafny

This project models `Bunny\Stream\Client`, the PHP client of the Bunny Stream
video API, together with its exception hierarchy. The client is a thin mapping
layer. Each public method does four things:

1. It assembles one HTTP request: a verb, a path relative to the library's
   base URI, a query, and a JSON body or a file stream.
2. It sends the request through a Guzzle client configured once by the
   constructor.
3. It turns the response into a result by a fixed chain of status checks:
   - 401 raises `AuthenticationException` with the configured access key;
   - 200 returns the decoded JSON body;
   - then come the operation's own 400/404 branches, in the order they are
     written;
   - anything else raises `Bunny\Stream\Exception` with a message that names
     the operation.
4. Only `uploadVideo` combines two calls: `createVideo`, then
   `uploadVideoWithVideoId` on the returned `guid`.

The modules follow the program:

- `Wrappers` holds `Option`.
- `Exceptions` models `Exception.php` and its three subclasses:
  - the class of an exception, its message and its code;
  - the exact message each constructor builds;
  - `__toString`, whose `__CLASS__` is always the base class.
- `Http` models the PHP arrays and HTTP values the client handles:
  - an ordered array of entries, with PHP's lookup and key order;
  - decoded JSON;
  - requests, responses and the Guzzle options.
  - `Transport` is a class: its configuration is fixed at construction, and
    its log of sent requests grows by one per `Send`.
  - The server is a parameter: a function from the requests sent so far and
    the new request to a response.
- `Requests` holds two things:
  - the constructor's transport options;
  - every query and body the client assembles, including PHP's truthiness
    rule (`if ($x)`), which decides whether an optional argument is sent.
- `Classification` holds all 21 status chains. Each is written as a table of
  `(status, exception)` branches plus a fallback message. It is checked
  against two independent references:
  - a per-operation description (`NotFoundMeansVideo`, `BadRequestMessage`, …);
  - an inverse of the fallback messages.
- `Stream` holds the `Client` class:
  - its three string fields and its transport, all written once by the
    constructor;
  - one method per operation. Each builds its request step by step as the
    PHP code does, sends it, classifies the answer, and states in its
    `ensures` exactly which requests were appended to the transport's log and
    what the call ends in;
  - the two-step `uploadVideo` workflow and the file-reading `addCaption`,
    given as functions on the server and the local disk so that lemmas can
    reason about them.

A call ends in one of three outcomes:

- `Returned(json)`.
- `Raised(exception)`.
- `TypeError(site)`. This is what PHP 8 under `declare(strict_types=1)`
  raises when a value of the wrong type is used; `site` names the expression
  that raises it. In `addCaption`,
  `base64_encode(false)` raises it. In `uploadVideo`, a created object
  without a string `guid` raises it.

## Model

| member | source | states |
|---|---|---|
| Exceptions.ToString | src/Exception.php:9-12 | the rendering is the base class name `Bunny\Stream\Exception: `, then the message verbatim, then a final newline, for every exception class |
| Exceptions.RenderingRoundTrip | src/Exception.php:11 | the message can be read back from every rendering |
| Exceptions.RenderingOnlyFromToString | src/Exception.php:11 | every string the reader accepts is exactly the rendering of an exception with that message |
| Exceptions.RenderingIgnoresClass | src/Exception.php:11 | `__CLASS__` is bound in the base class: two exceptions with the same message render identically whatever their class and code |
| Exceptions.AuthenticationMessage | src/AuthenticationException.php:11 | the message is "Authentication denied for access key '", then the key verbatim, then "'." |
| Exceptions.AccessKeyRoundTrip | src/AuthenticationException.php:11 | the access key can be recovered from the message, and only a message of exactly that form names a given key |
| Exceptions.NewAuthentication | src/AuthenticationException.php:7-13 | an AuthenticationException carrying the given code (default 0) whose message names exactly the access key |
| Exceptions.NewVideoNotFound | src/VideoNotFoundException.php:7-13 | a VideoNotFoundException with the given code (default 0) whose message is "Could not find requested video: " followed by the guid verbatim |
| Exceptions.NewCollectionNotFound | src/CollectionNotFoundException.php:7-13 | a CollectionNotFoundException with the given code (default 0) whose message is "The requested collection was not found: " followed by the id verbatim |
| Exceptions.SubjectsAreRecoverable | src/VideoNotFoundException.php:11 | distinct subjects give distinct messages in each of the three subclasses |
| Exceptions.ClassesHaveDistinctMessages | src/CollectionNotFoundException.php:11 | no message of one subclass equals a message of another, whatever the subjects |
| Http.Transport.constructor | src/client.php:18-25 | the transport keeps the options it was built with and has sent nothing |
| Http.Transport.Send | src/client.php:47-49 | sending appends exactly the request to the log and returns the server's answer to it given the earlier requests |
| Requests.ClientConfig | src/client.php:18-25 | redirects off, HTTP errors off, base URI = API base URL + library id + "/", and the only header is AccessKey holding the access key |
| Requests.BaseUriRoundTrip | src/client.php:16-21 | the library id can be read back from the base URI, so distinct libraries get distinct base URIs |
| Requests.BoolString | src/client.php:421 | a flag is written as "true" exactly when it is set and "false" exactly when it is not; both strings are truthy |
| Requests.BoolStringRoundTrip | src/client.php:449 | the written flag parses back to the flag |
| Requests.Optional | src/client.php:35-37 | `if ($v) { $q[$k] = $v; }` adds the key exactly when the value is truthy, holding that value |
| Requests.ListVideosAlwaysPages | src/client.php:30-33 | `page` and `itemsPerPage` are the first two entries and always hold the page and page-size arguments |
| Requests.ListVideosOptionalKeys | src/client.php:35-45 | `search`, `collection` and `orderBy` are present exactly when their argument is truthy and then hold that argument |
| Requests.ListVideosKeys | src/client.php:30-45 | the keys sent, in order: the two page keys, then each optional key whose argument is truthy |
| Requests.ListVideosUniqueKeys | src/client.php:30-45 | no key is sent twice |
| Requests.ListVideosFalsyIsOmitted | src/client.php:35-37 | a search of "" or "0" sends the same query as no search |
| Requests.ListVideosDefaults | src/client.php:28-33 | with no arguments the query is exactly page=1, itemsPerPage=100 |
| Requests.ListVideosSearchAddsOneKey | src/client.php:35-37 | a truthy search inserts the single key `search` right after the page keys and leaves the other keys in place |
| Requests.ListVideosSearchKeepsOtherKeys | src/client.php:35-45 | a truthy search changes the value of no other key |
| Requests.CreateVideoBodyAlwaysComplete | src/client.php:115-121 | the body always has exactly the keys title, collectionId, thumbnailTime in that order, and a missing optional argument is sent as null |
| Requests.PlayDataQueryShape | src/client.php:224-231 | `token` and `expires` are sent exactly when truthy, in that order; an expiry of 0 is not sent |
| Requests.FetchQueryShape | src/client.php:320-326 | `collectionId` and `thumbnailTime` go in the query exactly when truthy |
| Requests.FetchBodyShape | src/client.php:328-336 | the body starts with the url; `title` and `headers` are present exactly when truthy, so an empty headers array is left out |
| Requests.FetchOmitsEverythingUnsupplied | src/client.php:318-336 | with only a url, the query is empty and the body holds only the url |
| Requests.CaptionBodyShape | src/client.php:364-370 | the body holds srclang, the base64 of the file's content, and `label` exactly when truthy |
| Requests.ListCollectionsQueryKeys | src/client.php:446-455 | the four fixed keys are always sent in order, then `search` exactly when truthy |
| Requests.ListCollectionsQueryValues | src/client.php:446-451 | the fixed keys hold the page, the page size, the flag as a string and the order field |
| Requests.BooleanFlagsAreStrings | src/client.php:296-476 | transcribeVideo `force` and the `includeThumbnails` of listCollections and getCollection are sent as the strings "true"/"false"; repackageVideo sends `keepOriginalFiles` as a native bool |
| Classification.FirstMatch | src/client.php:163-169 | the exception of the first branch, in source order, whose status matches; none exactly when no branch has that status |
| Classification.Classify | src/client.php:51-59 | 401 raises AuthenticationException with the access key; 200 returns the body unchanged; the result is a returned body exactly when the status is 200; outside these, it is a raised exception, never a type error |
| Classification.CasesOfOnlyNotFound | src/client.php:98-110 | the nine operations with a single special case map only 404, to VideoNotFound or CollectionNotFound, and have no 400 branch |
| Classification.CasesOfBadRequestFirst | src/client.php:303-315 | repackage, fetch, addCaption, deleteCaption and transcribe check 400, with their own message, before 404 |
| Classification.CasesOfUpload | src/client.php:159-171 | uploadVideoWithVideoId checks 404 before 400 |
| Classification.CasesOfUnchecked | src/client.php:55-59 | the six remaining operations have no 400 or 404 branch |
| Classification.StatusCasesAreClientErrors | src/client.php:102-110 | every special branch is a 400 or a 404, never 401 or 200, and no status appears twice in a chain |
| Classification.AuthenticationCheckedFirst | src/client.php:51-53 | a 401 raises AuthenticationException naming the configured access key, for every operation and every body |
| Classification.NotFound | src/client.php:355-356 | a 404 raises VideoNotFound or CollectionNotFound with the operation's subject per the reference description, and the fallback message for the rest |
| Classification.BadRequest | src/client.php:351-352 | a 400 raises the operation's own message where it has one, and the fallback message otherwise |
| Classification.ClassifyAt | src/client.php:163-165 | a status other than 401 and 200 takes the first branch that has it |
| Classification.ClassifyUnmatched | src/client.php:544-552 | a status no branch has raises the operation's fallback message |
| Classification.UnmappedStatus | src/client.php:55-59 | every status other than 200, 400, 401 and 404 raises the fallback message naming the operation |
| Classification.OperationOfFallback | src/client.php:59 | an operation read back from a message is one whose fallback message is exactly that message |
| Classification.FallbackRoundTrip | src/client.php:250 | every fallback message reads back as its own operation; getVideoPlayData's reads as getVideoStatistics |
| Classification.FallbackNamesTheOperation | src/client.php:250 | two different operations share a fallback message only when they are getVideoPlayData and getVideoStatistics |
| Classification.PlayDataReusesStatisticsMessage | src/client.php:250 | getVideoPlayData's fallback is 'Could not get video statistics.' |
| Exceptions.NewBase | src/Exception.php:7-13 | `new Exception($message)` thrown by the client: base class, the message, code 0; checked by ToString, BadRequest and ClassifyUnmatched |
| Requests.Truthy | src/client.php:35-453 | PHP's `if ($x)`: "", "0", 0, false, null and the empty array are false; checked by Optional, ListVideosFalsyIsOmitted, PlayDataQueryShape and FetchBodyShape |
| Requests.ListVideosQuery | src/client.php:30-45 | the listVideos query; checked by the ListVideos* lemmas |
| Requests.CreateVideoBody | src/client.php:116-120 | the createVideo body; checked by CreateVideoBodyAlwaysComplete |
| Requests.UploadQuery | src/client.php:145-148 | the uploadVideoWithVideoId query, enabledResolutions when truthy; checked by Optional's contract |
| Requests.PlayDataQuery | src/client.php:224-231 | the getVideoPlayData query; checked by PlayDataQueryShape |
| Requests.FetchQuery | src/client.php:320-326 | the fetchVideo query; checked by FetchQueryShape and FetchOmitsEverythingUnsupplied |
| Requests.FetchBody | src/client.php:328-336 | the fetchVideo body; checked by FetchBodyShape and FetchOmitsEverythingUnsupplied |
| Requests.CaptionBody | src/client.php:364-370 | the addCaption body; checked by CaptionBodyShape and Stream.AddCaptionReadsFileFirst |
| Requests.TranscribeQuery | src/client.php:421 | the transcribeVideo query; checked by BooleanFlagsAreStrings |
| Requests.RepackageQuery | src/client.php:296 | the repackageVideo query; checked by BooleanFlagsAreStrings |
| Requests.GetCollectionQuery | src/client.php:476 | the getCollection query; checked by BooleanFlagsAreStrings |
| Requests.ListCollectionsQuery | src/client.php:446-455 | the listCollections query; checked by ListCollectionsQueryKeys, ListCollectionsQueryValues and BooleanFlagsAreStrings |
| Classification.StatusCases | src/client.php:106-550 | every operation's 400/404 branches in source order with their exceptions; checked by the CasesOf* lemmas, StatusCasesAreClientErrors, NotFound and BadRequest against NotFoundMeansVideo, NotFoundMeansCollection and BadRequestMessage |
| Classification.FallbackMessage | src/client.php:59-552 | the 21 generic `Could not …` messages; checked by FallbackRoundTrip, FallbackNamesTheOperation and PlayDataReusesStatisticsMessage |
| Stream.Exchange | src/client.php:47-59 | one round trip: the request sent and the answer classified by the operation's chain; checked by FetchVideoNotFoundNamesUrl and StatisticsNotFoundNamesVideoId |
| Stream.CreateVideoRequest | src/client.php:115-121 | createVideo's request: POST videos with the three-key JSON body; checked by Requests.CreateVideoBodyAlwaysComplete and UploadVideoNeverRollsBack |
| Stream.UploadRequest | src/client.php:150-153 | uploadVideoWithVideoId's request: PUT videos/{videoId} with the optional resolutions in the query and the file stream as body; checked by UploadStatusOrder and UploadVideoPartialFailure |
| Stream.CaptionRequest | src/client.php:372-374 | addCaption's request: POST videos/{videoId}/captions/{srclang} with the caption JSON body; checked by AddCaptionReadsFileFirst |
| Stream.UploadWithVideoIdRun | src/client.php:134-172 | uploadVideoWithVideoId: two local checks, then one PUT; checked by UploadChecksFileFirst and UploadStatusOrder |
| Stream.GuidOf | src/client.php:177 | the guid read from the created object, present only for an object whose guid is a string; checked by UploadVideoReturnsSecondStep and UploadVideoWithoutGuid |
| Stream.UploadVideoRun | src/client.php:174-178 | uploadVideo's two steps; checked by the UploadVideo* lemmas |
| Stream.AddCaptionRun | src/client.php:362-393 | addCaption: read the file, then one POST; checked by AddCaptionReadsFileFirst |
| Stream.UploadChecksFileFirst | src/client.php:136-143 | a missing file, then an unopenable file, raises its own message before any request is sent |
| Stream.UploadStatusOrder | src/client.php:150-169 | once the file opens, one PUT is sent: 401 is authentication, 404 is VideoNotFound(videoId), 400 is 'The requested video was already uploaded' |
| Stream.UploadVideoNeverRollsBack | src/client.php:174-178 | uploadVideo sends the createVideo request first, at most one more request (a PUT), and never a DELETE |
| Stream.UploadVideoReturnsSecondStep | src/client.php:176-177 | after a successful create, the upload goes to the returned guid and its result, not the created object, is returned |
| Stream.UploadVideoPartialFailure | src/client.php:174-178 | when the upload step fails, both requests were sent and the error raised is the upload step's; the created video is left in place |
| Stream.UploadVideoChecksFileAfterCreate | src/client.php:176-177 | a missing file is detected only after the video was created |
| Stream.UploadVideoCreateFailure | src/client.php:176 | a failed create is raised as is, and nothing else is sent |
| Stream.UploadVideoWithoutGuid | src/client.php:177 | a created object without a string guid ends in a TypeError after only the create request |
| Stream.AddCaptionReadsFileFirst | src/client.php:364-374 | an unreadable file ends in a TypeError before any request is sent; otherwise one POST carries the file's content |
| Stream.FetchVideoNotFoundNamesUrl | src/client.php:355-356 | fetchVideo's 404 names the source url verbatim |
| Stream.StatisticsNotFoundNamesVideoId | src/client.php:253-268 | getVideoStatistics' 404 raises VideoNotFound naming the video id; that the request sent does not depend on the video id is stated by the ensures of Stream.Client.GetVideoStatistics, where the id appears only as the classification subject |
| Stream.Client.constructor | src/client.php:13-26 | stores the access key and the library id, fixes the API base URL, and builds the transport with the configured options and an empty log |
| Stream.Client.ListVideos | src/client.php:28-60 | one GET videos with the listVideos query, classified by its chain |
| Stream.Client.GetVideo | src/client.php:62-75 | one GET videos/{id}, classified |
| Stream.Client.UpdateVideo | src/client.php:77-92 | one PUT videos/{id} with the given JSON body, classified |
| Stream.Client.DeleteVideo | src/client.php:94-111 | one DELETE videos/{id}; 404 names the id |
| Stream.Client.CreateVideo | src/client.php:113-132 | one POST videos with the complete three-key body, classified |
| Stream.Client.UploadVideoWithVideoId | src/client.php:134-172 | the two local file checks, then one PUT of the file stream with the optional resolutions |
| Stream.Client.UploadVideo | src/client.php:174-178 | appends exactly the requests of the two-step workflow and returns its outcome |
| Stream.Client.SetVideoThumbnail | src/client.php:180-200 | one POST videos/{id}/thumbnail with the url in the query; 404 names the id |
| Stream.Client.GetVideoHeatmap | src/client.php:202-220 | one GET videos/{id}/heatmap; 404 names the id |
| Stream.Client.GetVideoPlayData | src/client.php:222-251 | one GET videos/{id}/play with the optional token and expiry |
| Stream.Client.GetVideoStatistics | src/client.php:253-272 | one GET statistics with the caller's query; 404 names the video id |
| Stream.Client.ReencodeVideo | src/client.php:274-291 | one POST videos/{id}/reencode; 404 names the id |
| Stream.Client.RepackageVideo | src/client.php:293-316 | one GET videos/{id}/repackage with the native bool flag; 400 before 404 |
| Stream.Client.FetchVideo | src/client.php:318-360 | one POST videos/fetch with the optional query and body keys; 404 names the url |
| Stream.Client.AddCaption | src/client.php:362-393 | reads the file, then one POST videos/{id}/captions/{lang}, or a TypeError with nothing sent |
| Stream.Client.DeleteCaption | src/client.php:395-416 | one DELETE videos/{id}/captions/{lang}; 400 before 404 |
| Stream.Client.TranscribeVideo | src/client.php:418-441 | one POST videos/{id}/transcribe with the language and the flag as a string |
| Stream.Client.ListCollections | src/client.php:444-471 | one GET collections with the listCollections query |
| Stream.Client.GetCollection | src/client.php:473-492 | one GET collections/{id} with the flag as a string; 404 is CollectionNotFound |
| Stream.Client.CreateCollection | src/client.php:494-511 | one POST collections with the name |
| Stream.Client.UpdateCollection | src/client.php:513-534 | one PUT collections/{id} with the name; 404 is CollectionNotFound |
| Stream.Client.DeleteCollection | src/client.php:536-553 | one DELETE collections/{id}; 404 is CollectionNotFound |

## Left out

- The HTTP exchange itself: Guzzle, the network, TLS and redirects are not
  modelled. The server is a function from the requests sent so far and the new
  request to a status and a decoded body, so the model assumes every request
  gets a response. In PHP, with `http_errors` off, Guzzle's `request()` still
  throws when sending fails (a connection error, say). That exception escapes
  every operation unclassified, including uploadVideo's second step after the
  video was created; the model does not capture it.
- JSON encoding and decoding: `json_decode($body, true)` is not computed. A
  response arrives with its body already decoded, and a returned value is that
  decoded body. A body that fails to decode (PHP's `null`) is a `JNull` body.
  A decoded object is a `map`, so the key order of the ordered PHP array that
  `json_decode` returns to the caller is not kept; nothing in the model
  depends on it.
- How Guzzle serialises a query: the model keeps the PHP array the client
  hands over. In particular it does not say how Guzzle spells repackageVideo's
  native `true`/`false` on the wire.
- `base64_encode` is not computed: a caption body carries `Base64Of(content)`,
  which records the bytes it encodes.
- The file system: `file_exists`, `fopen` and `file_get_contents` are the
  sets and map of `LocalFiles`, read at the time of the call. The opened
  stream is a `FileStream(path)` body, and closing it is not modelled.
- PHP arrays with integer keys, floats in JSON, and string offsets. The model
  has string keys only. `$videoObject['guid']` on a decoded value that is
  not an object with a string `guid` is modelled as a TypeError at the single
  expression on line 177. On a string body PHP raises it at the read itself;
  otherwise the value read (null, a number, …) is rejected by
  uploadVideoWithVideoId's `string $videoId`. The model does not distinguish
  these two places.
- Strings are sequences of characters, while PHP strings are byte strings. The
  lengths in the contracts of Exceptions.ToString and
  Exceptions.AuthenticationMessage count characters, not `strlen` bytes;
  nothing in the client depends on a length.
- The `$previous` exception of the exception constructors, and PHP's file and
  line information, are not modelled. An exception is its class, its message
  and its code.
- The PHP parameter types beyond strings, ints, bools and arrays: createVideo's
  untyped `$title` and addCaption's untyped `$label` are any `Value`.
- Concurrency: the client is used single-threaded, and nothing is said about
  sharing one client between threads.
- Repeated calls give the same result for the same server and history. This
  holds because every operation is a function of those inputs. There is no
  separate lemma for it.
- Stream.Client.UploadVideo: the method's contract ties its log and result to
  UploadVideoRun. The properties of the workflow are lemmas about that
  function, not `ensures` of the method.
- Behaviour a caller may not expect, kept as the code has it:
  - addCaption does not check its file. An unreadable caption file makes
    `file_get_contents` return false, and under strict types
    `base64_encode(false)` raises a TypeError before any request. It is not a
    library exception.
  - uploadVideo checks the file only inside its second step, after the video
    has been created.
  - getVideoPlayData's fallback message is 'Could not get video statistics.',
    reproduced as written.
