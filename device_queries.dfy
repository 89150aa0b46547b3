/** The batched device lookups both cloud API classes make: the
    `device_ids` query and the guard that answers an empty id list without a
    request (`getDeviceListInfo` in both classes, `getDeviceListStatus` in
    `TuyaOpenAPI`). */
module DeviceQueries {
  import opened Values
  import opened Text

  /** The `device_ids` query of a batched lookup: `devIds.join(",")`, which
      is how `String` renders an array. */
  function IdsQuery(ids: seq<Value>): Record {
    [("device_ids", Str(ToJsString(Arr(ids))))]
  }

  /** A batched lookup: an empty id list answers `[]` and sends no request;
      otherwise the request carries the joined ids and the answer is the
      response's list. Returns the list and the query sent, if any. */
  function BatchedList(ids: seq<Value>, responseList: seq<Record>): (r: (seq<Record>, Option<Record>))
    ensures r.1.None? <==> ids == []
    ensures ids == [] ==> r.0 == []
    ensures ids != [] ==> r.0 == responseList && r.1 == Some(IdsQuery(ids))
  {
    if |ids| == 0 then ([], None) else (responseList, Some(IdsQuery(ids)))
  }

  /** The ids of a batched query can be read back from it when no id
      contains a comma. */
  lemma IdsQueryRecoverable(ids: seq<string>)
    requires ids != []
    requires forall i :: 0 <= i < |ids| ==> ',' !in ids[i]
    ensures var q := IdsQuery(seq(|ids|, i requires 0 <= i < |ids| => Str(ids[i])));
            Split(Get(q, "device_ids").s, ',') == ids
  {
    var vs := seq(|ids|, i requires 0 <= i < |ids| => Str(ids[i]));
    IdsQueryParts(vs);
  }

  /** Split at the commas, a batched query gives back one part per id: the
      empty string for an `undefined` or `null` id, `String(id)` for any
      other, when no id renders with a comma. */
  lemma IdsQueryParts(ids: seq<Value>)
    requires ids != []
    requires forall i :: 0 <= i < |ids| ==> ',' !in ToJsString(ids[i])
    ensures var parts := Split(Get(IdsQuery(ids), "device_ids").s, ',');
            && |parts| == |ids|
            && forall i :: 0 <= i < |ids| ==>
                 parts[i] == if ids[i].Undefined? || ids[i].Null? then "" else ToJsString(ids[i])
  {
    var parts := seq(|ids|, i requires 0 <= i < |ids| =>
                       if ids[i].Undefined? || ids[i].Null? then "" else ToJsString(ids[i]));
    assert ToJsString(Arr(ids)) == Join(parts, ',');
    SplitJoin(parts, ',');
  }
}
