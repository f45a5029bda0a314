/**
 * The GraphQL resolvers of the modular backend. Each is a short composition of
 * calls on the repository it is handed; the only resolvers that change the
 * repository are `createInvite` and `addTag` (there is no tag-removal
 * mutation). The repository is the in-memory one.
 */
module GraphQLSchema {
  import opened Tags
  import opened VideoRecords
  import opened MemoryRepository

  /** `Query.video`: the repository's record, field for field; the repository is left alone. */
  method Video(repo: MemoryRepo, inviteId: string) returns (v: CandidateVideo)
    requires repo.Valid()
    ensures v == Lookup(repo.videos, inviteId)
    ensures v.inviteId == inviteId
    ensures inviteId !in repo.videos ==> v == Blank(inviteId)
  {
    var record := repo.GetVideo(inviteId);
    v := CandidateVideo(record.inviteId, record.url, record.tags);
  }

  /** `Mutation.createInvite`: answers its argument; an existing invite is kept as it was. */
  method CreateInvite(repo: MemoryRepo, inviteId: string) returns (r: string)
    requires repo.Valid()
    modifies repo
    ensures repo.Valid()
    ensures r == inviteId
    ensures repo.videos == Created(old(repo.videos), inviteId)
    ensures inviteId in old(repo.videos) ==> repo.videos == old(repo.videos)
  {
    CreatedIdempotent(repo.videos, inviteId);
    r := repo.CreateInvite(inviteId);
  }

  /**
   * `Mutation.addTag`: the tag list `add_tag` returned, with the id and url
   * read back from the repository afterwards.
   */
  method AddTag(repo: MemoryRepo, inviteId: string, tag: string) returns (v: CandidateVideo)
    requires repo.Valid()
    modifies repo
    ensures repo.Valid()
    ensures repo.videos == Tagged(old(repo.videos), inviteId, tag)
    ensures v == repo.videos[inviteId]
    ensures v.inviteId == inviteId && tag in v.tags && NoDuplicates(v.tags)
    ensures v.url == Lookup(old(repo.videos), inviteId).url
  {
    var tags := repo.AddTag(inviteId, tag);
    var record := repo.GetVideo(inviteId);
    v := CandidateVideo(record.inviteId, record.url, tags);
  }
}
