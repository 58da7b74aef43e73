/**
 * The library's exception hierarchy: the base class Bunny\Stream\Exception and
 * its three subclasses AuthenticationException, VideoNotFoundException and
 * CollectionNotFoundException. Each subclass only fixes the message it hands to
 * the base constructor; the base class only fixes how an exception is rendered
 * as a string.
 */
module Exceptions {
  import opened Wrappers

  /** The PHP class of a thrown exception. Every class here is Bunny\Stream\Exception or extends it. */
  datatype Class = Base | Authentication | VideoNotFound | CollectionNotFound

  /** An exception object: its class, the message given to PHP's \Exception constructor and its code. */
  datatype Exception = Exception(cls: Class, message: string, code: int)

  const AuthenticationPrefix: string := "Authentication denied for access key '"
  const AuthenticationSuffix: string := "'."
  const VideoNotFoundPrefix: string := "Could not find requested video: "
  const CollectionNotFoundPrefix: string := "The requested collection was not found: "

  /** The value of `__CLASS__` inside Exception::__toString: always the base class's name. */
  const RenderedPrefix: string := "Bunny\\Stream\\Exception: "

  /** The part of `s` after `prefix`, when `s` starts with `prefix`. */
  function StripPrefix(prefix: string, s: string): (r: Option<string>)
    ensures r.Some? <==> |prefix| <= |s| && s[..|prefix|] == prefix
    ensures r.Some? ==> s == prefix + r.value
  {
    if |prefix| <= |s| && s[..|prefix|] == prefix then Some(s[|prefix|..]) else None
  }

  lemma StripPrefixOfConcat(prefix: string, rest: string)
    ensures StripPrefix(prefix, prefix + rest) == Some(rest)
  {
    assert (prefix + rest)[..|prefix|] == prefix;
    assert (prefix + rest)[|prefix|..] == rest;
  }

  // ---------------------------------------------------------------- the base class

  /** `new Exception($message)` thrown by the client itself (code 0). */
  function NewBase(message: string): Exception
  {
    Exception(Base, message, 0)
  }

  /** Exception::__toString: the fixed class-name prefix, the message, a newline. */
  function ToString(e: Exception): (s: string)
    ensures |s| == |RenderedPrefix| + |e.message| + 1
    ensures s[..|RenderedPrefix|] == RenderedPrefix
    ensures s[|RenderedPrefix|..|s| - 1] == e.message
    ensures s[|s| - 1] == '\n'
  {
    RenderedPrefix + e.message + "\n"
  }

  /** Recovers the message from a rendered exception; the inverse of ToString. */
  function MessageOfRendering(s: string): Option<string>
  {
    match StripPrefix(RenderedPrefix, s)
    case None => None
    case Some(rest) => if |rest| > 0 && rest[|rest| - 1] == '\n' then Some(rest[..|rest| - 1]) else None
  }

  /** Rendering loses nothing: the message can be read back from the rendered string. */
  lemma RenderingRoundTrip(e: Exception)
    ensures MessageOfRendering(ToString(e)) == Some(e.message)
  {
    assert ToString(e) == RenderedPrefix + (e.message + "\n");
    StripPrefixOfConcat(RenderedPrefix, e.message + "\n");
    assert (e.message + "\n")[..|e.message|] == e.message;
  }

  /** Every string MessageOfRendering accepts is the rendering of an exception with that message. */
  lemma RenderingOnlyFromToString(s: string, e: Exception)
    requires MessageOfRendering(s) == Some(e.message)
    ensures ToString(e) == s
  {
    var rest := StripPrefix(RenderedPrefix, s).value;
    assert rest == e.message + "\n";
  }

  /**
   * `__CLASS__` is bound where __toString is written, so every subclass renders
   * with the base class's prefix: two exceptions with the same message render
   * the same whatever their classes and codes.
   */
  lemma RenderingIgnoresClass(e1: Exception, e2: Exception)
    requires e1.message == e2.message
    ensures ToString(e1) == ToString(e2)
    ensures StripPrefix(RenderedPrefix, ToString(e1)) == Some(e1.message + "\n")
  {
    assert ToString(e1) == RenderedPrefix + (e1.message + "\n");
    StripPrefixOfConcat(RenderedPrefix, e1.message + "\n");
  }

  // ---------------------------------------------------------------- AuthenticationException

  /** The message of AuthenticationException: the access key verbatim between single quotes. */
  function AuthenticationMessage(accessKey: string): (m: string)
    ensures |m| == |AuthenticationPrefix| + |accessKey| + |AuthenticationSuffix|
    ensures m[..|AuthenticationPrefix|] == AuthenticationPrefix
    ensures m[|AuthenticationPrefix|..|m| - |AuthenticationSuffix|] == accessKey
    ensures m[|m| - |AuthenticationSuffix|..] == AuthenticationSuffix
  {
    AuthenticationPrefix + accessKey + AuthenticationSuffix
  }

  /** The access key named by an authentication message; the inverse of AuthenticationMessage. */
  function AccessKeyOf(m: string): Option<string>
  {
    if |AuthenticationPrefix| + |AuthenticationSuffix| <= |m|
       && m[..|AuthenticationPrefix|] == AuthenticationPrefix
       && m[|m| - |AuthenticationSuffix|..] == AuthenticationSuffix
    then Some(m[|AuthenticationPrefix|..|m| - |AuthenticationSuffix|])
    else None
  }

  /** The access key can be read back from the message, and only messages of that shape name one. */
  lemma AccessKeyRoundTrip(accessKey: string, m: string)
    ensures AccessKeyOf(AuthenticationMessage(accessKey)) == Some(accessKey)
    ensures AccessKeyOf(m) == Some(accessKey) ==> m == AuthenticationMessage(accessKey)
  {
    if AccessKeyOf(m) == Some(accessKey) {
      var p, k, s := m[..|AuthenticationPrefix|], m[|AuthenticationPrefix|..|m| - |AuthenticationSuffix|], m[|m| - |AuthenticationSuffix|..];
      assert m == p + k + s;
    }
  }

  /** `new AuthenticationException($accessKey, $code)`; the code defaults to 0. */
  function NewAuthentication(accessKey: string, code: int := 0): (e: Exception)
    ensures e.cls == Authentication && e.code == code
    ensures AccessKeyOf(e.message) == Some(accessKey)
  {
    AccessKeyRoundTrip(accessKey, AuthenticationMessage(accessKey));
    Exception(Authentication, AuthenticationMessage(accessKey), code)
  }

  // ---------------------------------------------------------------- VideoNotFoundException

  /** `new VideoNotFoundException($guid, $code)`: the guid is the message's suffix; the code defaults to 0. */
  function NewVideoNotFound(guid: string, code: int := 0): (e: Exception)
    ensures e.cls == VideoNotFound && e.code == code
    ensures StripPrefix(VideoNotFoundPrefix, e.message) == Some(guid)
  {
    StripPrefixOfConcat(VideoNotFoundPrefix, guid);
    Exception(VideoNotFound, VideoNotFoundPrefix + guid, code)
  }

  // ---------------------------------------------------------------- CollectionNotFoundException

  /** `new CollectionNotFoundException($collectionId, $code)`: the id is the message's suffix; the code defaults to 0. */
  function NewCollectionNotFound(collectionId: string, code: int := 0): (e: Exception)
    ensures e.cls == CollectionNotFound && e.code == code
    ensures StripPrefix(CollectionNotFoundPrefix, e.message) == Some(collectionId)
  {
    StripPrefixOfConcat(CollectionNotFoundPrefix, collectionId);
    Exception(CollectionNotFound, CollectionNotFoundPrefix + collectionId, code)
  }

  /** The three subclasses name their subject verbatim, so distinct subjects give distinct messages. */
  lemma SubjectsAreRecoverable(a: string, b: string)
    requires a != b
    ensures NewAuthentication(a).message != NewAuthentication(b).message
    ensures NewVideoNotFound(a).message != NewVideoNotFound(b).message
    ensures NewCollectionNotFound(a).message != NewCollectionNotFound(b).message
  {
  }

  /** The messages of the three subclasses never collide, whatever their subjects. */
  lemma ClassesHaveDistinctMessages(a: string, b: string)
    ensures NewVideoNotFound(a).message != NewCollectionNotFound(b).message
    ensures NewAuthentication(a).message != NewVideoNotFound(b).message
    ensures NewAuthentication(a).message != NewCollectionNotFound(b).message
  {
    assert NewVideoNotFound(a).message[0] == 'C' && NewVideoNotFound(b).message[0] == 'C';
    assert NewCollectionNotFound(b).message[0] == 'T';
    assert NewAuthentication(a).message[0] == 'A';
  }
}
