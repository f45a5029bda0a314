/**
 * The in-memory repository: a dictionary from invite id to that invite's
 * record. Every operation first makes sure the id has a record (Python's
 * `dict.setdefault`), so every write is an upsert.
 *
 * The pure functions below say what each operation does to the dictionary;
 * the class `MemoryRepo` performs the same updates on its field and its
 * methods are proved against these functions.
 */
module MemoryRepository {
  import opened Wrappers
  import opened Tags
  import opened VideoRecords

  type Store = map<string, CandidateVideo>

  /** Every record is filed under its own id and carries no duplicate tag. */
  predicate WellFormed(m: Store)
  {
    forall id :: id in m ==> m[id].inviteId == id && NoDuplicates(m[id].tags)
  }

  /** What `get_video` answers: the stored record, or a blank one for an unknown id. */
  function Lookup(m: Store, id: string): (v: CandidateVideo)
    ensures id in m ==> v == m[id]
    ensures id !in m ==> v.inviteId == id && v.url == None && v.tags == []
    ensures WellFormed(m) ==> v.inviteId == id && NoDuplicates(v.tags)
  {
    if id in m then m[id] else Blank(id)
  }

  /** The store after `create_invite(id)`. */
  function Created(m: Store, id: string): (m': Store)
    ensures m'.Keys == m.Keys + {id}
    ensures forall k :: k in m ==> m'[k] == m[k]
    ensures m'[id] == Lookup(m, id)
    ensures WellFormed(m) ==> WellFormed(m')
  {
    m[id := Lookup(m, id)]
  }

  /** The store after `set_video_url(id, url)`. */
  function WithUrl(m: Store, id: string, url: string): (m': Store)
    ensures m'.Keys == m.Keys + {id}
    ensures forall k :: k in m && k != id ==> m'[k] == m[k]
    ensures m'[id].url == Some(url)
    ensures m'[id].inviteId == Lookup(m, id).inviteId && m'[id].tags == Lookup(m, id).tags
    ensures WellFormed(m) ==> WellFormed(m')
  {
    m[id := Lookup(m, id).(url := Some(url))]
  }

  /** The store after `add_tag(id, tag)`. */
  function Tagged(m: Store, id: string, tag: string): (m': Store)
    ensures m'.Keys == m.Keys + {id}
    ensures forall k :: k in m && k != id ==> m'[k] == m[k]
    ensures tag in m'[id].tags
    ensures m'[id].tags == WithTag(Lookup(m, id).tags, tag)
    ensures m'[id].inviteId == Lookup(m, id).inviteId && m'[id].url == Lookup(m, id).url
    ensures WellFormed(m) ==> WellFormed(m')
  {
    var v := Lookup(m, id);
    m[id := v.(tags := WithTag(v.tags, tag))]
  }

  /** The store after `remove_tag(id, tag)`. */
  function Untagged(m: Store, id: string, tag: string): (m': Store)
    ensures m'.Keys == m.Keys + {id}
    ensures forall k :: k in m && k != id ==> m'[k] == m[k]
    ensures m'[id].tags == WithoutFirst(Lookup(m, id).tags, tag)
    ensures m'[id].inviteId == Lookup(m, id).inviteId && m'[id].url == Lookup(m, id).url
  {
    var v := Lookup(m, id);
    m[id := v.(tags := WithoutFirst(v.tags, tag))]
  }

  /** Removing a tag keeps the store well formed and, tags being duplicate-free, leaves the tag absent. */
  lemma UntaggedWellFormed(m: Store, id: string, tag: string)
    requires WellFormed(m)
    ensures WellFormed(Untagged(m, id, tag))
    ensures tag !in Untagged(m, id, tag)[id].tags
  {
    WithoutFirstOnNoDuplicates(Lookup(m, id).tags, tag);
  }

  /** Creating an invite twice is the same as creating it once, and never overwrites a record. */
  lemma CreatedIdempotent(m: Store, id: string)
    ensures Created(Created(m, id), id) == Created(m, id)
    ensures id in m ==> Created(m, id) == m
  {
    if id in m {
      assert Created(m, id) == m;
    }
  }

  /** A lookup cannot tell a freshly created invite from one that was never created. */
  lemma LookupAfterCreated(m: Store, id: string, other: string)
    ensures Lookup(Created(m, id), other) == Lookup(m, other)
  {
  }

  /** Adding the same tag twice leaves the same store as adding it once. */
  lemma TaggedIdempotent(m: Store, id: string, tag: string)
    ensures Tagged(Tagged(m, id, tag), id, tag) == Tagged(m, id, tag)
  {
    var once := Tagged(m, id, tag);
    WithTagIdempotent(Lookup(m, id).tags, tag);
    assert Lookup(once, id) == once[id];
  }

  /** Removing a tag that was just added restores the store as it was after creating the invite. */
  lemma UntagUndoesTag(m: Store, id: string, tag: string)
    requires tag !in Lookup(m, id).tags
    ensures Untagged(Tagged(m, id, tag), id, tag) == Created(m, id)
  {
    var v := Lookup(m, id);
    var tagged := Tagged(m, id, tag);
    RemoveUndoesAdd(v.tags, tag);
    assert tagged == m[id := v.(tags := WithTag(v.tags, tag))];
    assert Lookup(tagged, id) == v.(tags := WithTag(v.tags, tag));
    assert Untagged(tagged, id, tag) == tagged[id := v];
  }

  /** Removing a tag that is absent changes nothing but the upsert of the record. */
  lemma UntagAbsentIsCreate(m: Store, id: string, tag: string)
    requires tag !in Lookup(m, id).tags
    ensures Untagged(m, id, tag) == Created(m, id)
  {
  }

  class MemoryRepo {
    var videos: Store

    ghost predicate Valid()
      reads this
    {
      WellFormed(videos)
    }

    constructor ()
      ensures Valid() && videos == map[]
    {
      videos := map[];
    }

    /** `setdefault(invite_id, blank)`: the record for `inviteId`, inserted first if missing. */
    method SetDefault(inviteId: string) returns (v: CandidateVideo)
      requires Valid()
      modifies this
      ensures Valid()
      ensures videos == Created(old(videos), inviteId) && v == videos[inviteId]
    {
      if inviteId !in videos {
        videos := videos[inviteId := CandidateVideo(inviteId, None, [])];
      }
      v := videos[inviteId];
    }

    method CreateInvite(inviteId: string) returns (r: string)
      requires Valid()
      modifies this
      ensures Valid()
      ensures r == inviteId
      ensures videos == Created(old(videos), inviteId)
    {
      var _ := SetDefault(inviteId);
      r := inviteId;
    }

    method GetVideo(inviteId: string) returns (v: CandidateVideo)
      requires Valid()
      ensures v == Lookup(videos, inviteId)
      ensures v.inviteId == inviteId && NoDuplicates(v.tags)
      ensures inviteId !in videos ==> v.url == None && v.tags == []
    {
      if inviteId in videos {
        v := videos[inviteId];
      } else {
        v := CandidateVideo(inviteId, None, []);
      }
    }

    method SetVideoUrl(inviteId: string, url: string)
      requires Valid()
      modifies this
      ensures Valid()
      ensures videos == WithUrl(old(videos), inviteId, url)
      ensures videos[inviteId].tags == Lookup(old(videos), inviteId).tags
    {
      var v := SetDefault(inviteId);
      videos := videos[inviteId := v.(url := Some(url))];
    }

    method AddTag(inviteId: string, tag: string) returns (tags: seq<string>)
      requires Valid()
      modifies this
      ensures Valid()
      ensures videos == Tagged(old(videos), inviteId, tag)
      ensures tags == videos[inviteId].tags && tag in tags
    {
      ghost var before := videos;
      var v := SetDefault(inviteId);
      tags := v.tags;
      if tag !in tags {
        tags := tags + [tag];
      }
      assert v == Lookup(before, inviteId) && tags == WithTag(v.tags, tag);
      videos := videos[inviteId := v.(tags := tags)];
      assert videos == before[inviteId := v.(tags := tags)];
    }

    method RemoveTag(inviteId: string, tag: string) returns (tags: seq<string>)
      requires Valid()
      modifies this
      ensures Valid()
      ensures videos == Untagged(old(videos), inviteId, tag)
      ensures tags == videos[inviteId].tags && tag !in tags
    {
      ghost var before := videos;
      UntaggedWellFormed(before, inviteId, tag);
      var v := SetDefault(inviteId);
      tags := v.tags;
      if tag in tags {
        tags := WithoutFirst(tags, tag);
      }
      assert v == Lookup(before, inviteId) && tags == WithoutFirst(v.tags, tag);
      videos := videos[inviteId := v.(tags := tags)];
      assert videos == before[inviteId := v.(tags := tags)];
    }
  }
}
