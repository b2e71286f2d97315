/**
 * The LaunchDarkly change notification as the webhook decodes it, and the
 * Datadog event the handler builds from it.
 */
module Events {
  import opened Wrappers

  /** The member who made the change (wire names `firstName`, `lastName`). */
  datatype Member = Member(firstName: string, lastName: string)

  /** One access record of the change; only `action` is read. */
  datatype Access = Access(action: string)

  /** The decoded webhook body (wire names in camelCase, `titleVerb` for `title_verb`). */
  datatype Payload = Payload(
    accesses: seq<Access>,
    kind: string,
    name: string,
    description: string,
    titleVerb: string,
    member: Member)

  /** The JSON document posted to Datadog's event API. */
  datatype DatadogEvent = DatadogEvent(
    title: string,
    text: string,
    tags: seq<string>,
    sourceTypeName: string)

  /** The `source_type_name` every event carries. */
  const SourceTypeName: string := "launch-darkly"

  /** A Datadog `key:value` tag. */
  function Tag(key: string, value: string): string {
    key + ":" + value
  }

  /**
   * `event`: the title joins the member's names, the verb and the changed
   * item's name with single spaces; the text is the description; the three
   * tags are kind, name and the first access's action, in that order.
   * The source indexes `accesses[0]` unchecked, so the payload must have one.
   */
  function Event(p: Payload): (e: DatadogEvent)
    requires |p.accesses| > 0
    ensures e.title == p.member.firstName + " " + p.member.lastName + " " + p.titleVerb + " " + p.name
    ensures e.text == p.description
    ensures e.tags == ["kind:" + p.kind, "name:" + p.name, "action:" + p.accesses[0].action]
    ensures e.sourceTypeName == "launch-darkly"
  {
    DatadogEvent(
      p.member.firstName + " " + p.member.lastName + " " + p.titleVerb + " " + p.name,
      p.description,
      ["kind:" + p.kind, "name:" + p.name, "action:" + p.accesses[0].action],
      SourceTypeName)
  }

  /** The value of the first tag whose key is `key`, as Datadog reads `key:value` tags. */
  function TagValue(tags: seq<string>, key: string): (v: Option<string>)
    ensures v.Some? ==>
      exists i :: 0 <= i < |tags| && tags[i] == Tag(key, v.value) &&
        forall j :: 0 <= j < i ==> !(key + ":" <= tags[j])
    ensures v.None? ==> forall i :: 0 <= i < |tags| ==> !(key + ":" <= tags[i])
  {
    if tags == [] then None
    else if key + ":" <= tags[0] then
      assert tags[0] == Tag(key, tags[0][|key| + 1..]);
      Some(tags[0][|key| + 1..])
    else
      var v := TagValue(tags[1..], key);
      if v.Some? then
        var i :| 0 <= i < |tags[1..]| && tags[1..][i] == Tag(key, v.value) &&
          forall j :: 0 <= j < i ==> !(key + ":" <= tags[1..][j]);
        assert tags[i + 1] == Tag(key, v.value);
        assert forall j :: 0 <= j < i + 1 ==> !(key + ":" <= tags[j]) by {
          forall j | 0 < j < i + 1 ensures !(key + ":" <= tags[j]) {
            assert tags[j] == tags[1..][j - 1];
          }
        }
        v
      else
        v
  }

  /** The event's tags give back the payload's kind, name and first action when looked up by key. */
  lemma EventTagsRecoverPayload(p: Payload)
    requires |p.accesses| > 0
    ensures TagValue(Event(p).tags, "kind") == Some(p.kind)
    ensures TagValue(Event(p).tags, "name") == Some(p.name)
    ensures TagValue(Event(p).tags, "action") == Some(p.accesses[0].action)
  {
    var tags := Event(p).tags;
    assert tags[0][0] == 'k' && tags[1][0] == 'n' && tags[2][0] == 'a';
    assert (tags[0])[5..] == p.kind;
    assert (tags[1])[5..] == p.name;
    assert (tags[2])[7..] == p.accesses[0].action;
    assert tags[1..][1..] == [tags[2]];
  }

  /** Of all the accesses, the event depends on the first one's action alone. */
  lemma EventReadsFirstActionOnly(p: Payload, q: Payload)
    requires |p.accesses| > 0 && |q.accesses| > 0
    requires p.(accesses := []) == q.(accesses := [])
    requires p.accesses[0].action == q.accesses[0].action
    ensures Event(p) == Event(q)
  {
  }

  /** The event the source's own test expects for its sample payload. */
  lemma SamplePayloadEvent()
    ensures Event(SamplePayload()) == SampleEvent()
  {
    SampleTitle();
    SampleTags();
    var e := Event(SamplePayload());
    assert e.text == SampleEvent().text;
  }

  /** The title part of the sample: the four words, joined. */
  lemma SampleTitle()
    ensures Event(SamplePayload()).title == "Reese Applebaum changed the name of Testing"
  {
    var e := Event(SamplePayload());
    assert e.title == "Reese" + " " + "Applebaum" + " " + "changed the name of" + " " + "Testing";
    assert "Reese" + " " == "Reese ";
    assert "Reese " + "Applebaum" == "Reese Applebaum";
    assert "Reese Applebaum" + " " == "Reese Applebaum ";
    assert "Reese Applebaum " + "changed the name of" == "Reese Applebaum changed the name of";
    assert "Reese Applebaum changed the name of" + " " == "Reese Applebaum changed the name of ";
    assert "Reese Applebaum changed the name of " + "Testing" == "Reese Applebaum changed the name of Testing";
  }

  /** The tags part of the sample. */
  lemma SampleTags()
    ensures Event(SamplePayload()).tags == ["kind:environment", "name:Testing", "action:updateName"]
  {
    var e := Event(SamplePayload());
    assert e.tags[0] == "kind:" + "environment";
    assert "kind:" + "environment" == "kind:environment";
    assert e.tags[1] == "name:" + "Testing";
    assert "name:" + "Testing" == "name:Testing";
    assert e.tags[2] == "action:" + "updateName";
    assert "action:" + "updateName" == "action:updateName";
  }

  /** The body of the source's sample webhook, decoded. */
  function SamplePayload(): Payload {
    Payload(
      [Access("updateName")],
      "environment",
      "Testing",
      "- Changed the name from ~~Test~~ to *Testing*",
      "changed the name of",
      Member("Reese", "Applebaum"))
  }

  /** The event the source's test expects for the sample payload. */
  function SampleEvent(): DatadogEvent {
    DatadogEvent(
      "Reese Applebaum changed the name of Testing",
      "- Changed the name from ~~Test~~ to *Testing*",
      ["kind:environment", "name:Testing", "action:updateName"],
      "launch-darkly")
  }
}
