/**
 * The tag matcher: `check_if_tag_exists` and `check_if_tag_is_compliant`.
 * A resource's tags are an ordered list of key/value records, or `None`
 * when the provider returned no tag list at all.
 */
module TagMatcher {
  import opened Wrappers

  datatype Tag = Tag(key: string, value: string)

  /** The allowed-values entry that accepts any value. */
  const Wildcard := "*"

  /** `map(itemgetter('Key'), tags)`. */
  function Keys(ts: seq<Tag>): (ks: seq<string>)
    ensures |ks| == |ts|
    ensures forall i :: 0 <= i < |ts| ==> ks[i] == ts[i].key
  {
    if |ts| == 0 then [] else [ts[0].key] + Keys(ts[1..])
  }

  /** `check_if_tag_exists`: false for `None`; otherwise true iff some tag
      has exactly this key (case-sensitive string equality). */
  predicate TagExists(tags: Option<seq<Tag>>, key: string)
  {
    tags.Some? && key in Keys(tags.value)
  }

  lemma TagExistsIff(tags: Option<seq<Tag>>, key: string)
    ensures TagExists(tags, key) <==>
      tags.Some? && exists i :: 0 <= i < |tags.value| && tags.value[i].key == key
  {
    if tags.Some? && key in Keys(tags.value) {
      var i :| 0 <= i < |tags.value| && Keys(tags.value)[i] == key;
      assert tags.value[i].key == key;
    }
  }

  /** The position of the first tag carrying `key`, if any. */
  function FirstWithKey(ts: seq<Tag>, key: string): (r: Option<nat>)
    ensures r.Some? ==> r.value < |ts| && ts[r.value].key == key
    ensures r.Some? ==> forall j :: 0 <= j < r.value ==> ts[j].key != key
    ensures r.None? ==> forall j :: 0 <= j < |ts| ==> ts[j].key != key
  {
    if |ts| == 0 then None
    else if ts[0].key == key then Some(0)
    else match FirstWithKey(ts[1..], key)
      case None => None
      case Some(i) => Some(i + 1)
  }

  /** A value passes when it is listed, or when the list holds the wildcard. */
  predicate IsAllowed(value: string, allowed: seq<string>)
  {
    value in allowed || Wildcard in allowed
  }

  /** `check_if_tag_is_compliant`, as a specification: false for `None` and
      for a missing key; otherwise decided by the first tag with the key. */
  predicate TagIsCompliant(tags: Option<seq<Tag>>, key: string, allowed: seq<string>)
  {
    match tags
    case None => false
    case Some(ts) =>
      match FirstWithKey(ts, key)
      case None => false
      case Some(i) => IsAllowed(ts[i].value, allowed)
  }

  /** `check_if_tag_is_compliant` as the source runs it: a scan of the tags
      that returns at the first tag with the key. */
  method CheckIfTagIsCompliant(tags: Option<seq<Tag>>, key: string, allowed: seq<string>)
    returns (r: bool)
    ensures r == TagIsCompliant(tags, key, allowed)
    ensures r <==> (tags.Some? &&
      exists i :: 0 <= i < |tags.value| && tags.value[i].key == key &&
        (forall j :: 0 <= j < i ==> tags.value[j].key != key) &&
        IsAllowed(tags.value[i].value, allowed))
  {
    if tags.None? {
      return false;
    }
    var ts := tags.value;
    var i := 0;
    while i < |ts|
      invariant 0 <= i <= |ts|
      invariant forall j :: 0 <= j < i ==> ts[j].key != key
    {
      if ts[i].key == key {
        return ts[i].value in allowed || Wildcard in allowed;
      }
      i := i + 1;
    }
    return false;
  }

  /** A compliant value implies a present key, so the evaluator's
      "not compliant" branch is only ever reached for keys that exist. */
  lemma CompliantImpliesExists(tags: Option<seq<Tag>>, key: string, allowed: seq<string>)
    ensures TagIsCompliant(tags, key, allowed) ==> TagExists(tags, key)
  {
    if TagIsCompliant(tags, key, allowed) {
      var i := FirstWithKey(tags.value, key).value;
      assert Keys(tags.value)[i] == key;
    }
  }

  /** With the wildcard allowed, compliance is exactly existence. */
  lemma WildcardAcceptsAnyValue(tags: Option<seq<Tag>>, key: string, allowed: seq<string>)
    requires Wildcard in allowed
    ensures TagIsCompliant(tags, key, allowed) <==> TagExists(tags, key)
  {
    CompliantImpliesExists(tags, key, allowed);
    TagExistsIff(tags, key);
  }

  /** Tags after the first one with the key are never consulted. */
  lemma {:induction false} LaterDuplicatesIgnored(ts: seq<Tag>, extra: seq<Tag>, key: string, allowed: seq<string>)
    requires TagExists(Some(ts), key)
    ensures TagIsCompliant(Some(ts + extra), key, allowed) == TagIsCompliant(Some(ts), key, allowed)
  {
    TagExistsIff(Some(ts), key);
    var i := FirstWithKey(ts, key).value;
    var f := FirstWithKey(ts + extra, key);
    assert (ts + extra)[i] == ts[i];
    assert f.Some? && f.value == i;
  }

  /** The matcher test cases where the wildcard appears, once as a tag's
      value and once among the allowed values beside a listed one. */
  lemma MatcherWildcardExamples()
    ensures var tags := Some([Tag("environment", "*"), Tag("KubernetesCluster", "kube.prod.pxfd.tech"), Tag("project", "da")]);
      TagExists(tags, "environment")
    ensures var tags := Some([Tag("environment", "dev"), Tag("KubernetesCluster", "kube.prod.pxfd.tech"), Tag("project", "da")]);
      TagIsCompliant(tags, "environment", ["*", "dev"])
  {
    var a := [Tag("environment", "*"), Tag("KubernetesCluster", "kube.prod.pxfd.tech"), Tag("project", "da")];
    assert Keys(a)[0] == "environment";
  }

  /** The other parametrised cases of the matcher tests. */
  lemma MatcherExamples()
    ensures var tags := Some([Tag("environment", "prod"), Tag("KubernetesCluster", "kube.prod.pxfd.tech"), Tag("project", "da")]);
      TagExists(tags, "environment") && TagIsCompliant(tags, "environment", ["prod", "dev", "test"])
    ensures var tags := Some([Tag("service", "k8s"), Tag("KubernetesCluster", "kube.prod.pxfd.tech"), Tag("project", "da")]);
      !TagExists(tags, "environment")
    ensures !TagExists(None, "environment") && !TagIsCompliant(None, "environment", ["prod", "dev", "test"])
    ensures var tags := Some([Tag("environment", "unknown"), Tag("KubernetesCluster", "kube.prod.pxfd.tech"), Tag("project", "da")]);
      TagIsCompliant(tags, "environment", ["*"]) && !TagIsCompliant(tags, "environment", ["prod", "dev", "test"])
    ensures var tags := Some([Tag("project", "unknown"), Tag("KubernetesCluster", "kube.prod.pxfd.tech"), Tag("project", "da")]);
      !TagIsCompliant(tags, "environment", ["prod", "dev", "test"])
  {
    var a := [Tag("environment", "prod"), Tag("KubernetesCluster", "kube.prod.pxfd.tech"), Tag("project", "da")];
    assert Keys(a)[0] == "environment";
    var b := [Tag("service", "k8s"), Tag("KubernetesCluster", "kube.prod.pxfd.tech"), Tag("project", "da")];
    assert forall i :: 0 <= i < 3 ==> Keys(b)[i] != "environment";
    var c := [Tag("environment", "unknown"), Tag("KubernetesCluster", "kube.prod.pxfd.tech"), Tag("project", "da")];
    assert "unknown" !in ["prod", "dev", "test"];
    var d := [Tag("project", "unknown"), Tag("KubernetesCluster", "kube.prod.pxfd.tech"), Tag("project", "da")];
    assert forall i :: 0 <= i < 3 ==> d[i].key != "environment";
  }
}
