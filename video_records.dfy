/**
 * The record kept per invite: its id, the URL of the uploaded video (absent
 * until an upload happened) and its tags. The repository's dictionary and the
 * GraphQL `CandidateVideo` type have exactly these three fields.
 */
module VideoRecords {
  import opened Wrappers

  datatype CandidateVideo = CandidateVideo(inviteId: string, url: Option<string>, tags: seq<string>)

  /** The record a store inserts (or a lookup returns) for an id it has never seen. */
  function Blank(inviteId: string): (v: CandidateVideo)
    ensures v.inviteId == inviteId && v.url == None && v.tags == []
  {
    CandidateVideo(inviteId, None, [])
  }
}
