/**
 * The dashboard's video player turns a stored upload path into something the
 * browser is pointed at: a path under the modular backend's upload directory
 * gets the backend's origin in front of it; any other source is used as it is.
 * (Neither backend declares a route that serves those files.)
 */
module VideoPlayer {
  import LegacyBackend

  const UploadsPrefix := "app/uploads/"
  const BackendOrigin := "http://localhost:8000/"

  /** The `src` given to the `<video>` element. */
  function VideoSrc(src: string): (r: string)
    ensures UploadsPrefix <= src ==> r == BackendOrigin + src
    ensures !(UploadsPrefix <= src) ==> r == src
    ensures |src| <= |r| && r[|r| - |src|..] == src
    ensures !(UploadsPrefix <= r)
  {
    if UploadsPrefix <= src then
      assert (BackendOrigin + src)[0] == BackendOrigin[0] != UploadsPrefix[0];
      BackendOrigin + src
    else
      src
  }

  /** Rewriting an already rewritten source changes nothing. */
  lemma VideoSrcIdempotent(src: string)
    ensures VideoSrc(VideoSrc(src)) == VideoSrc(src)
  {
  }

  /**
   * A path stored by the single-file backend's upload handler does not lie
   * under `app/uploads/`, so it is passed on unchanged, relative to the page.
   */
  lemma LegacyUploadPathNotRewritten(inviteId: string)
    ensures VideoSrc(LegacyBackend.UploadPath(inviteId)) == LegacyBackend.UploadPath(inviteId)
  {
    var p := LegacyBackend.UploadPath(inviteId);
    assert p[0] != UploadsPrefix[0];
  }
}
