/** The description picker of the dashboard (`getItemDescription`): the
    snapshot's `descriptions` list mixes the item's description with sticker
    lists, coloured notes and short lines; the picker takes the first entry
    that looks like the main description. */
module DescriptionPicker {
  import opened Common
  import opened Records

  const MinLength := 30

  /** A JavaScript truthiness test for an optional string: present and not
      empty. */
  predicate Truthy(s: Option<string>) {
    s.Some? && s.value != ""
  }

  /** The entry passes every test of the loop: HTML type, a value that is
      present and not blank, at least 30 UTF-16 units long, no sticker
      information, and no colour. */
  predicate IsMainDescription(desc: Description) {
    && desc.kind == "html"
    && Truthy(desc.value) && !IsBlank(desc.value.value)
    && Utf16Length(desc.value.value) >= MinLength
    && !Contains(desc.value.value, "sticker_info")
    && !Truthy(desc.color)
  }

  /** The value of the first entry that passes every test, if any. */
  function FirstMainDescription(descriptions: seq<Description>): Option<string> {
    if |descriptions| == 0 then None
    else if IsMainDescription(descriptions[0]) then descriptions[0].value
    else FirstMainDescription(descriptions[1..])
  }

  /** The picker finds nothing exactly when no entry passes every test;
      otherwise it finds the value of the first entry that does. */
  lemma {:induction false} FirstMainDescriptionIsFirstMatch(descriptions: seq<Description>)
    ensures var r := FirstMainDescription(descriptions);
      && (r.None? <==> forall k :: 0 <= k < |descriptions| ==> !IsMainDescription(descriptions[k]))
      && (r.Some? ==>
            exists k :: 0 <= k < |descriptions| && IsMainDescription(descriptions[k]) && descriptions[k].value == r
                        && forall j :: 0 <= j < k ==> !IsMainDescription(descriptions[j]))
  {
    if |descriptions| == 0 {
    } else if IsMainDescription(descriptions[0]) {
      assert descriptions[0].value == FirstMainDescription(descriptions);
    } else {
      var rest := descriptions[1..];
      FirstMainDescriptionIsFirstMatch(rest);
      assert forall k :: 1 <= k < |descriptions| ==> descriptions[k] == rest[k - 1];
      var r := FirstMainDescription(rest);
      if r.Some? {
        var k :| 0 <= k < |rest| && IsMainDescription(rest[k]) && rest[k].value == r
          && forall j :: 0 <= j < k ==> !IsMainDescription(rest[j]);
        assert IsMainDescription(descriptions[k + 1]) && descriptions[k + 1].value == r;
        assert forall j :: 0 <= j < k + 1 ==> !IsMainDescription(descriptions[j]);
      }
    }
  }

  /** An entry with a colour is passed over and the search goes on with the
      entries after it. */
  lemma ColouredEntrySkipped(desc: Description, rest: seq<Description>)
    requires Truthy(desc.color)
    ensures FirstMainDescription([desc] + rest) == FirstMainDescription(rest)
  {
    assert ([desc] + rest)[1..] == rest;
  }

  /** `getItemDescription()` over the item details held in state. */
  method GetItemDescription(itemDetails: Option<Snapshot>) returns (mainDescription: Option<string>)
    ensures itemDetails.None? || itemDetails.value.descriptions.None? ==> mainDescription == None
    ensures itemDetails.Some? && itemDetails.value.descriptions.Some? ==>
      mainDescription == FirstMainDescription(itemDetails.value.descriptions.value)
  {
    if itemDetails.None? || itemDetails.value.descriptions.None? {
      return None;
    }
    var descriptions := itemDetails.value.descriptions.value;
    mainDescription := None;
    for i := 0 to |descriptions|
      invariant mainDescription == None
      invariant FirstMainDescription(descriptions) == FirstMainDescription(descriptions[i..])
    {
      var desc := descriptions[i];
      assert descriptions[i..][1..] == descriptions[i + 1..];
      if desc.kind != "html" {
        continue;
      }
      if !Truthy(desc.value) || IsBlank(desc.value.value) {
        continue;
      }
      if Utf16Length(desc.value.value) < MinLength {
        continue;
      }
      if Contains(desc.value.value, "sticker_info") {
        continue;
      }
      if !Truthy(desc.color) {
        mainDescription := desc.value;
        break;
      }
    }
  }
}
