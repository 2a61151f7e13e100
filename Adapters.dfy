/**
 * The one piece of the fetch adapters that is not a cloud call: the SQS
 * adapter turns the `Tags` dictionary of `list_queue_tags` into the list of
 * key/value records every other adapter already receives.
 */
module Adapters {
  import opened Wrappers
  import opened TagMatcher

  /** A dictionary's entries in its iteration order. */
  type Entries = seq<(string, string)>

  /** A dictionary never holds a key twice. */
  predicate DistinctKeys(entries: Entries)
  {
    forall i, j :: 0 <= i < j < |entries| ==> entries[i].0 != entries[j].0
  }

  /** The reshaping of one queue's tags. `None` stands for a `ClientError`
      from `list_queue_tags`, which leaves the queue with an empty list. */
  method QueueTags(response: Option<Entries>) returns (tags: seq<Tag>)
    ensures response.None? ==> tags == []
    ensures response.Some? ==> |tags| == |response.value|
    ensures response.Some? ==>
      forall i :: 0 <= i < |tags| ==> tags[i] == Tag(response.value[i].0, response.value[i].1)
  {
    tags := [];
    if response.None? {
      return;
    }
    var entries := response.value;
    for i := 0 to |entries|
      invariant |tags| == i
      invariant forall j :: 0 <= j < i ==> tags[j] == Tag(entries[j].0, entries[j].1)
    {
      tags := tags + [Tag(entries[i].0, entries[i].1)];
    }
  }

  /** The matcher sees the dictionary exactly: an entry's key is found at
      the entry's own position, so its value is the one judged, and a key
      that is not in the dictionary is not found. */
  lemma QueueTagsFaithful(entries: Entries, tags: seq<Tag>)
    requires DistinctKeys(entries)
    requires |tags| == |entries|
    requires forall i :: 0 <= i < |tags| ==> tags[i] == Tag(entries[i].0, entries[i].1)
    ensures forall i :: 0 <= i < |entries| ==>
      FirstWithKey(tags, entries[i].0) == Some(i) && tags[i].value == entries[i].1
    ensures forall key :: TagExists(Some(tags), key) <==> exists i :: 0 <= i < |entries| && entries[i].0 == key
  {
    forall key ensures TagExists(Some(tags), key) <==> exists i :: 0 <= i < |entries| && entries[i].0 == key {
      TagExistsIff(Some(tags), key);
    }
  }
}
