/**
 * The single-file backend: a module-level dictionary `VIDEOS` from invite id
 * to `{url, tags}`, the GraphQL `video`, `createInvite` and `addTag` resolvers
 * that read and update it, and the REST upload handler, which records where
 * the uploaded file was written.
 *
 * Its entries carry no invite id; `AsStore` adds it, which puts this store in
 * the shape of the repository's dictionary. Every operation here is proved to
 * do to `AsStore(videos)` exactly what the repository's matching operation does
 * to its dictionary, so the properties proved there carry over.
 */
module LegacyBackend {
  import opened Wrappers
  import opened Tags
  import opened VideoRecords
  import opened MemoryRepository

  datatype Entry = Entry(url: Option<string>, tags: seq<string>)

  /** The JSON body the upload handler answers with. */
  datatype UploadResponse = UploadResponse(status: string, videoUrl: string)

  const UploadDir := "uploads"

  /** The entries seen as repository records, each filed under its key. */
  function AsStore(m: map<string, Entry>): (s: Store)
    ensures s.Keys == m.Keys
    ensures forall id :: id in m ==> s[id] == CandidateVideo(id, m[id].url, m[id].tags)
  {
    map id | id in m :: CandidateVideo(id, m[id].url, m[id].tags)
  }

  /** Writing one entry writes the matching record. */
  lemma AsStoreUpdate(m: map<string, Entry>, id: string, e: Entry)
    ensures AsStore(m[id := e]) == AsStore(m)[id := CandidateVideo(id, e.url, e.tags)]
  {
  }

  /** The entry `setdefault` yields for `id`. */
  function EntryOrBlank(m: map<string, Entry>, id: string): (e: Entry)
    ensures CandidateVideo(id, e.url, e.tags) == Lookup(AsStore(m), id)
  {
    if id in m then m[id] else Entry(None, [])
  }

  /** Appending an absent tag to an entry is the repository's `add_tag` on the record view. */
  lemma TagEntry(m: map<string, Entry>, id: string, tag: string)
    ensures var e := EntryOrBlank(m, id);
            AsStore(m[id := e.(tags := WithTag(e.tags, tag))]) == Tagged(AsStore(m), id, tag)
  {
    var e := EntryOrBlank(m, id);
    AsStoreUpdate(m, id, e.(tags := WithTag(e.tags, tag)));
  }

  /** Setting an entry's url is the repository's `set_video_url` on the record view. */
  lemma UrlEntry(m: map<string, Entry>, id: string, url: string)
    ensures var e := EntryOrBlank(m, id);
            AsStore(m[id := e.(url := Some(url))]) == WithUrl(AsStore(m), id, url)
  {
    var e := EntryOrBlank(m, id);
    AsStoreUpdate(m, id, e.(url := Some(url)));
  }

  /** Two stores that look the same as repository records are the same. */
  lemma AsStoreInjective(a: map<string, Entry>, b: map<string, Entry>)
    requires AsStore(a) == AsStore(b)
    ensures a == b
  {
    forall id | id in a
      ensures id in b && a[id] == b[id]
    {
      assert AsStore(a)[id] == AsStore(b)[id];
    }
  }

  /**
   * `str(Path("uploads") / f"{invite_id}.webm")`. A path parameter holds no
   * `/`, so the join is plain concatenation with one separator.
   */
  function UploadPath(inviteId: string): (p: string)
    ensures |p| == |UploadDir| + 1 + |inviteId| + 5
    ensures p[..|UploadDir| + 1] == UploadDir + "/"
    ensures p[|UploadDir| + 1..|p| - 5] == inviteId
    ensures p[|p| - 5..] == ".webm"
  {
    UploadDir + "/" + inviteId + ".webm"
  }

  /** Distinct invites are written to distinct files. */
  lemma UploadPathInjective(a: string, b: string)
    requires UploadPath(a) == UploadPath(b)
    ensures a == b
  {
    var p := UploadPath(a);
    assert a == p[|UploadDir| + 1..|p| - 5];
  }

  /** A second `createInvite` changes nothing, and one on a known id leaves `VIDEOS` as it was. */
  lemma CreateInviteNeverOverwrites(before: map<string, Entry>, after: map<string, Entry>, id: string)
    requires id in before
    requires AsStore(after) == Created(AsStore(before), id)
    ensures after == before
  {
    CreatedIdempotent(AsStore(before), id);
    AsStoreInjective(after, before);
  }

  /** Calling `addTag` a second time with the same tag leaves `VIDEOS` as the first call left it. */
  lemma AddTagTwiceIsOnce(m0: map<string, Entry>, m1: map<string, Entry>, m2: map<string, Entry>,
                          id: string, tag: string)
    requires AsStore(m1) == Tagged(AsStore(m0), id, tag)
    requires AsStore(m2) == Tagged(AsStore(m1), id, tag)
    ensures m2 == m1
  {
    TaggedIdempotent(AsStore(m0), id, tag);
    AsStoreInjective(m2, m1);
  }

  /** The module-level state of the single-file backend. */
  class Backend {
    var videos: map<string, Entry>

    ghost predicate Valid()
      reads this
    {
      WellFormed(AsStore(videos))
    }

    constructor ()
      ensures Valid() && videos == map[]
    {
      videos := map[];
    }

    /** `VIDEOS.setdefault(invite_id, {"url": None, "tags": []})`. */
    method SetDefault(inviteId: string) returns (e: Entry)
      requires Valid()
      modifies this
      ensures Valid()
      ensures AsStore(videos) == Created(AsStore(old(videos)), inviteId)
      ensures inviteId in videos && e == videos[inviteId] == EntryOrBlank(old(videos), inviteId)
      ensures videos == old(videos)[inviteId := e]
    {
      ghost var before := AsStore(videos);
      if inviteId !in videos {
        videos := videos[inviteId := Entry(None, [])];
      }
      e := videos[inviteId];
      assert AsStore(videos) == before[inviteId := Lookup(before, inviteId)];
    }

    /** `Query.video`: a lookup with a default, which never inserts. */
    method Video(inviteId: string) returns (v: CandidateVideo)
      requires Valid()
      ensures v == Lookup(AsStore(videos), inviteId)
      ensures v.inviteId == inviteId && NoDuplicates(v.tags)
      ensures inviteId !in videos ==> v.url == None && v.tags == []
    {
      var e := if inviteId in videos then videos[inviteId] else Entry(None, []);
      v := CandidateVideo(inviteId, e.url, e.tags);
    }

    /** `Mutation.createInvite`. */
    method CreateInvite(inviteId: string) returns (r: string)
      requires Valid()
      modifies this
      ensures Valid()
      ensures r == inviteId
      ensures AsStore(videos) == Created(AsStore(old(videos)), inviteId)
    {
      var _ := SetDefault(inviteId);
      r := inviteId;
    }

    /** `Mutation.addTag`: the answer's tags are the very list now stored. */
    method AddTag(inviteId: string, tag: string) returns (v: CandidateVideo)
      requires Valid()
      modifies this
      ensures Valid()
      ensures AsStore(videos) == Tagged(AsStore(old(videos)), inviteId, tag)
      ensures inviteId in videos && v == CandidateVideo(inviteId, videos[inviteId].url, videos[inviteId].tags)
      ensures tag in v.tags
    {
      // `setdefault` followed by the write of the same key: the blank entry it
      // would insert is overwritten at once, so only the final write is made.
      var e := EntryOrBlank(videos, inviteId);
      var tags := e.tags;
      if tag !in tags {
        tags := tags + [tag];
      }
      TagEntry(videos, inviteId, tag);
      videos := videos[inviteId := e.(tags := tags)];
      v := CandidateVideo(inviteId, e.url, tags);
    }

    /**
     * The store update of the upload handler (the file write itself is not
     * modelled): the record's url becomes the path the file was written to.
     */
    method Upload(inviteId: string) returns (resp: UploadResponse)
      requires Valid()
      requires '/' !in inviteId
      modifies this
      ensures Valid()
      ensures AsStore(videos) == WithUrl(AsStore(old(videos)), inviteId, UploadPath(inviteId))
      ensures resp.status == "uploaded"
      ensures inviteId in videos && videos[inviteId].url == Some(resp.videoUrl)
      ensures resp.videoUrl == UploadPath(inviteId)
    {
      ghost var before := videos;
      var dest := UploadDir + "/" + inviteId + ".webm";
      var e := SetDefault(inviteId);
      videos := videos[inviteId := e.(url := Some(dest))];
      assert videos == before[inviteId := e.(url := Some(dest))];
      UrlEntry(before, inviteId, dest);
      resp := UploadResponse("uploaded", dest);
    }
  }
}
