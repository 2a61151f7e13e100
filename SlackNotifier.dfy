/**
 * The rendering half of `notify_slack`: the payload posted for one
 * non-compliant resource, and whether it is handed to the transport at all.
 */
module SlackNotifier {
  import opened Wrappers
  import opened Strings
  import opened TagMatcher
  import opened PolicyEvaluator

  /** Channel, user name and icon the messages are posted under. */
  datatype Identity = Identity(channel: string, username: string, iconUrl: string)

  datatype Field = Field(title: string, value: string, short: bool)

  datatype Attachment = Attachment(color: string, fallback: string, mrkdwnIn: seq<string>, fields: seq<Field>)

  datatype Payload = Payload(channel: string, username: string, iconUrl: string, text: string,
                             attachments: seq<Attachment>)

  function TagLine(t: Tag): (line: string)
  {
    t.key + " - " + t.value
  }

  /** One display line per tag, in the resource's own tag order. */
  function TagLines(ts: seq<Tag>): (lines: seq<string>)
    ensures |lines| == |ts|
    ensures forall i :: 0 <= i < |ts| ==> lines[i] == TagLine(ts[i])
  {
    if |ts| == 0 then [] else [TagLine(ts[0])] + TagLines(ts[1..])
  }

  /** `tags_formated`: empty when the resource has no tag list. */
  function FormatTags(tags: Option<seq<Tag>>): (lines: seq<string>)
  {
    match tags
    case None => []
    case Some(ts) => TagLines(ts)
  }

  function Fallback(service: string, id: string): (text: string)
  {
    "Resource " + service + " " + id + " is not compliant with tag policy"
  }

  function BuildPayload(identity: Identity, service: string, id: string, tags: Option<seq<Tag>>,
                        reasons: seq<string>): (payload: Payload)
  {
    Payload(identity.channel, identity.username, identity.iconUrl, "Tag Compliance",
      [Attachment("warning", Fallback(service, id), ["text"],
        [Field("Service", service, true),
         Field("ID", id, false),
         Field("Reason", Join("\n", reasons), false),
         Field("Tags", Join("\n", FormatTags(tags)), false)])])
  }

  predicate NoNewline(xs: seq<string>)
  {
    forall i :: 0 <= i < |xs| ==> '\n' !in xs[i]
  }

  predicate PlainTags(tags: Option<seq<Tag>>)
  {
    tags.Some? ==> forall i :: 0 <= i < |tags.value| ==> '\n' !in tags.value[i].key && '\n' !in tags.value[i].value
  }

  /**
   * What a reader gets back from the message: one attachment whose four
   * fields come in the order Service, ID, Reason, Tags; Service and ID give
   * the resource; splitting Reason at newlines gives the reasons in rule
   * order, and splitting Tags gives one "Key - Value" line per tag in tag
   * order, as long as no reason, key or value holds a newline itself.
   */
  lemma PayloadReadBack(identity: Identity, service: string, id: string, tags: Option<seq<Tag>>,
                        reasons: seq<string>)
    ensures var p := BuildPayload(identity, service, id, tags, reasons);
      p.text == "Tag Compliance" && |p.attachments| == 1 &&
      (p.channel, p.username, p.iconUrl) == (identity.channel, identity.username, identity.iconUrl)
    ensures var a := BuildPayload(identity, service, id, tags, reasons).attachments[0];
      a.color == "warning" &&
      a.fallback == "Resource " + service + " " + id + " is not compliant with tag policy" &&
      |a.fields| == 4 &&
      [a.fields[0].title, a.fields[1].title, a.fields[2].title, a.fields[3].title] == ["Service", "ID", "Reason", "Tags"] &&
      a.fields[0].value == service && a.fields[1].value == id
    ensures var a := BuildPayload(identity, service, id, tags, reasons).attachments[0];
      reasons != [] && NoNewline(reasons) ==> Split(a.fields[2].value, '\n') == reasons
    ensures var a := BuildPayload(identity, service, id, tags, reasons).attachments[0];
      FormatTags(tags) == [] ==> a.fields[3].value == ""
    ensures var a := BuildPayload(identity, service, id, tags, reasons).attachments[0];
      FormatTags(tags) != [] && PlainTags(tags) ==> Split(a.fields[3].value, '\n') == FormatTags(tags)
  {
    if reasons != [] && NoNewline(reasons) {
      SplitJoin(reasons, '\n');
    }
    var lines := FormatTags(tags);
    if lines != [] && PlainTags(tags) {
      forall i | 0 <= i < |lines| ensures '\n' !in lines[i] {
        var t := tags.value[i];
        assert lines[i] == t.key + " - " + t.value;
      }
      SplitJoin(lines, '\n');
    }
  }

  /** Two reasons and two tags: each field is its two lines joined by a newline. */
  lemma TwoReasonsTwoTags(identity: Identity, service: string, id: string, r1: string, r2: string, t1: Tag, t2: Tag)
    ensures var a := BuildPayload(identity, service, id, Some([t1, t2]), [r1, r2]).attachments[0];
      a.fields[2].value == r1 + "\n" + r2 &&
      a.fields[3].value == t1.key + " - " + t1.value + "\n" + t2.key + " - " + t2.value
  {
    var lines := TagLines([t1, t2]);
    assert lines == [TagLine(t1), TagLine(t2)];
    assert [r1, r2][1..] == [r2];
    assert Join("\n", [r1, r2]) == r1 + "\n" + r2;
    assert lines[1..] == [TagLine(t2)];
    assert Join("\n", lines) == TagLine(t1) + "\n" + TagLine(t2);
    assert TagLine(t1) + "\n" + TagLine(t2) == t1.key + " - " + t1.value + "\n" + t2.key + " - " + t2.value;
  }

  /** `notify_slack` for one evaluated resource: the payload is always built,
      and handed to the transport only when `deliver`, the value of the Slack
      switch, is true. */
  function NotifySlack(identity: Identity, deliver: bool, resource: Resource): (sent: Option<Payload>)
    reads resource
    requires resource.compliantReasons.Some?
    ensures sent.Some? <==> deliver
  {
    var payload := BuildPayload(identity, resource.service, resource.id, resource.tags, resource.compliantReasons.value);
    if deliver then Some(payload) else None
  }
}
