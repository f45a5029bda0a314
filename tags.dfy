/**
 * The two updates the stores apply to a record's tag list, as pure functions:
 * `if tag not in tags: tags.append(tag)` and `if tag in tags: tags.remove(tag)`.
 */
module Tags {

  /** No tag occurs twice. */
  predicate NoDuplicates(tags: seq<string>)
  {
    forall i, j :: 0 <= i < j < |tags| ==> tags[i] != tags[j]
  }

  /** Appends `tag` unless it is already present. */
  function WithTag(tags: seq<string>, tag: string): (r: seq<string>)
    ensures tag in r
    ensures |r| == if tag in tags then |tags| else |tags| + 1
    ensures r[..|tags|] == tags
    ensures forall t :: t in r <==> t in tags || t == tag
    ensures NoDuplicates(tags) ==> NoDuplicates(r)
  {
    if tag in tags then tags else tags + [tag]
  }

  /** Adding a tag twice leaves the same list as adding it once. */
  lemma WithTagIdempotent(tags: seq<string>, tag: string)
    ensures WithTag(WithTag(tags, tag), tag) == WithTag(tags, tag)
  {
  }

  /** The position of the first occurrence of `tag` (Python's `list.index`). */
  function FirstIndex(tags: seq<string>, tag: string): (k: nat)
    requires tag in tags
    ensures k < |tags| && tags[k] == tag
    ensures tag !in tags[..k]
  {
    if tags[0] == tag then 0
    else
      assert tag in tags[1..];
      var k := 1 + FirstIndex(tags[1..], tag);
      assert tags[..k] == [tags[0]] + tags[1..][..k - 1];
      k
  }

  /** Removes the first occurrence of `tag`, if any (Python's `list.remove` behind a membership test). */
  function WithoutFirst(tags: seq<string>, tag: string): (r: seq<string>)
    ensures tag !in tags ==> r == tags
    ensures tag in tags ==> |r| == |tags| - 1
    ensures multiset(r) == multiset(tags) - multiset{tag}
  {
    if tags == [] then []
    else if tags[0] == tag then
      assert tags == [tags[0]] + tags[1..];
      tags[1..]
    else
      assert tags == [tags[0]] + tags[1..];
      [tags[0]] + WithoutFirst(tags[1..], tag)
  }

  /** Removal cuts out exactly the element at the first occurrence, keeping the rest in order. */
  lemma {:induction false} WithoutFirstSplices(tags: seq<string>, tag: string)
    requires tag in tags
    ensures var k := FirstIndex(tags, tag);
            WithoutFirst(tags, tag) == tags[..k] + tags[k + 1..]
  {
    if tags[0] != tag {
      assert tag in tags[1..];
      WithoutFirstSplices(tags[1..], tag);
      var k := FirstIndex(tags[1..], tag);
      assert tags[..k + 1] == [tags[0]] + tags[1..][..k];
      assert tags[k + 2..] == tags[1..][k + 1..];
    }
  }

  /** The tail of a duplicate-free list is duplicate-free and lacks the head. */
  lemma TailNoDup(tags: seq<string>)
    requires NoDuplicates(tags) && tags != []
    ensures NoDuplicates(tags[1..]) && tags[0] !in tags[1..]
  {
    forall i, j | 0 <= i < j < |tags| - 1 ensures tags[1..][i] != tags[1..][j] {
      assert tags[1..][i] == tags[i + 1];
      assert tags[1..][j] == tags[j + 1];
    }
  }
  /** Putting a new element in front keeps a list duplicate-free. */
  lemma ConsNoDup(t: string, rest: seq<string>)
    requires NoDuplicates(rest) && t !in rest
    ensures NoDuplicates([t] + rest)
  {
    var r := [t] + rest;
    forall i, j | 0 <= i < j < |r|
      ensures r[i] != r[j]
    {
      if i == 0 {
        assert r[j] == rest[j - 1];
      } else {
        assert r[i] == rest[i - 1] && r[j] == rest[j - 1];
      }
    }
  }
  /** On a duplicate-free list, removal leaves the tag absent and the list still duplicate-free. */
  lemma {:induction false} WithoutFirstOnNoDuplicates(tags: seq<string>, tag: string)
    requires NoDuplicates(tags)
    ensures tag !in WithoutFirst(tags, tag)
    ensures NoDuplicates(WithoutFirst(tags, tag))
  {
    if tags != [] {
      TailNoDup(tags);
      var tail := tags[1..];
      if tags[0] != tag {
        WithoutFirstOnNoDuplicates(tail, tag);
        var rest := WithoutFirst(tail, tag);
        assert multiset(rest) <= multiset(tail);
        assert tags[0] !in multiset(tail);
        assert tags[0] !in rest;
        ConsNoDup(tags[0], rest);
      }
    }
  }

  /** Adding a new tag and then removing it gives back the original list. */
  lemma {:induction false} RemoveUndoesAdd(tags: seq<string>, tag: string)
    requires tag !in tags
    ensures WithoutFirst(WithTag(tags, tag), tag) == tags
  {
    RemoveAfterAppend(tags, tag);
  }

  /** Removing a tag that was appended to a list lacking it gives back the list. */
  lemma {:induction false} RemoveAfterAppend(tags: seq<string>, tag: string)
    requires tag !in tags
    ensures WithoutFirst(tags + [tag], tag) == tags
  {
    if tags != [] {
      var added := tags + [tag];
      assert added[1..] == tags[1..] + [tag];
      RemoveAfterAppend(tags[1..], tag);
      assert tags == [tags[0]] + tags[1..];
    }
  }
}
