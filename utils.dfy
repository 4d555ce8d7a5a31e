/** Helpers around the foreign bolt11 decoder and hash. The decoder is a
    parameter; only the list of `{name, value}` sections it returns is modelled. */
module Utils {
  import opened Js

  /** One tagged section of a decoded bolt11 invoice. */
  datatype Section = Section(name: string, value: string)

  /** The invoice decoder: the section list, or the message of the error it throws. */
  type Bolt11Decoder = string -> Result<seq<Section>>

  /** `getSHA256`: the hex digest of a string, left uninterpreted. */
  type Hash = string -> string

  /** The value of the first section named `name`; `None` when no section has it. */
  function FirstSection(name: string, sections: seq<Section>): (r: Option<string>)
    ensures r.None? <==> forall i :: 0 <= i < |sections| ==> sections[i].name != name
    ensures r.Some? ==>
      exists i :: 0 <= i < |sections| && sections[i].name == name && r.value == sections[i].value &&
        forall j :: 0 <= j < i ==> sections[j].name != name
    decreases |sections|
  {
    if sections == [] then None
    else if sections[0].name == name then Some(sections[0].value)
    else
      var r := FirstSection(name, sections[1..]);
      assert forall i :: 1 <= i < |sections| ==> sections[i] == sections[1..][i - 1];
      r
  }

  /** `getBolt11Section`: decode the invoice, then scan its sections from the
      front and return the value of the first one whose name matches. A decoder
      error propagates; no match falls off the end of the loop (`undefined`). */
  method GetBolt11Section(sectionName: string, invoice: string, decode: Bolt11Decoder)
    returns (r: Result<Option<string>>)
    ensures decode(invoice).Err? ==> r == Err(decode(invoice).message)
    ensures decode(invoice).Ok? ==> r == Ok(FirstSection(sectionName, decode(invoice).value))
    ensures r.Ok? && r.value.Some? ==>
      exists i :: 0 <= i < |decode(invoice).value| && decode(invoice).value[i].name == sectionName &&
        r.value.value == decode(invoice).value[i].value &&
        forall j :: 0 <= j < i ==> decode(invoice).value[j].name != sectionName
  {
    var result := decode(invoice);
    if result.Err? {
      return Err(result.message);
    }
    var sections := result.value;
    for i := 0 to |sections|
      invariant forall j :: 0 <= j < i ==> sections[j].name != sectionName
    {
      if sections[i].name == sectionName {
        FirstMatchIsFirstSection(sectionName, sections, i);
        return Ok(Some(sections[i].value));
      }
    }
    return Ok(None);
  }

  /** An index that matches, with no match before it, is the one `FirstSection` finds. */
  lemma FirstMatchIsFirstSection(name: string, sections: seq<Section>, i: nat)
    requires i < |sections| && sections[i].name == name
    requires forall j :: 0 <= j < i ==> sections[j].name != name
    ensures FirstSection(name, sections) == Some(sections[i].value)
  {
    var r := FirstSection(name, sections);
    assert r.Some?;
    var k :| 0 <= k < |sections| && sections[k].name == name && r.value == sections[k].value &&
      forall j :: 0 <= j < k ==> sections[j].name != name;
    assert k == i;
  }

  /** The answer depends only on the sections up to and including the first match:
      anything appended after a matching prefix is never looked at. */
  lemma {:induction false} FirstSectionIgnoresTail(name: string, front: seq<Section>, back: seq<Section>)
    requires FirstSection(name, front).Some?
    ensures FirstSection(name, front + back) == FirstSection(name, front)
    decreases |front|
  {
    if front[0].name != name {
      assert (front + back)[1..] == front[1..] + back;
      FirstSectionIgnoresTail(name, front[1..], back);
    }
  }
}
