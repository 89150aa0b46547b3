/** `DataUtil.getSubService`: the codes of a device's status entries that name
    a switch holding a boolean. */
module DataUtil {
  import opened Values
  import opened Text

  /** One status entry of a device: its data-point code and current value. */
  datatype Status = Status(code: string, value: Value)

  /** An entry is a sub-service when its code contains "switch" and its
      value is a boolean. */
  predicate Qualifies(e: Status) {
    Contains(e.code, "switch") && e.value.Bool?
  }

  /** The codes of the qualifying entries, in input order, one per
      occurrence. */
  function SubServices(status: seq<Status>): (codes: seq<string>)
    ensures |codes| <= |status|
    ensures status == [] ==> codes == []
    decreases |status|
  {
    if status == [] then []
    else
      var rest := SubServices(status[..|status| - 1]);
      var last := status[|status| - 1];
      if Qualifies(last) then rest + [last.code] else rest
  }

  /** `getSubService(status).subType`. */
  method GetSubService(status: seq<Status>) returns (subType: seq<string>)
    ensures subType == SubServices(status)
  {
    subType := [];
    var i := 0;
    while i < |status|
      invariant 0 <= i <= |status|
      invariant subType == SubServices(status[..i])
    {
      var entry := status[i];
      assert status[..i + 1][..i] == status[..i];
      if Contains(entry.code, "switch") {
        if entry.value.Bool? {
          subType := subType + [entry.code];
        }
      }
      i := i + 1;
    }
    assert status[..i] == status;
  }

  /** The filter distributes over concatenation: qualifying codes keep their
      order, and each occurrence is kept. */
  lemma {:induction false} SubServicesAppend(a: seq<Status>, b: seq<Status>)
    ensures SubServices(a + b) == SubServices(a) + SubServices(b)
    decreases |b|
  {
    if b == [] {
      assert a + b == a;
    } else {
      var b' := b[..|b| - 1];
      assert (a + b)[..|a + b| - 1] == a + b';
      SubServicesAppend(a, b');
    }
  }

  /** A single entry contributes its code exactly when it qualifies. */
  lemma SubServicesSingle(e: Status)
    ensures SubServices([e]) == if Qualifies(e) then [e.code] else []
  {
    assert [e][..0] == [];
  }

  /** Every code in the result is the code of a qualifying entry: it
      contains "switch" and its value is a boolean. */
  lemma {:induction false} SubServicesSound(status: seq<Status>)
    ensures forall c :: c in SubServices(status) ==>
              exists i :: 0 <= i < |status| && status[i].code == c && Qualifies(status[i])
    decreases |status|
  {
    if status != [] {
      var init := status[..|status| - 1];
      SubServicesSound(init);
      forall c | c in SubServices(status)
        ensures exists i :: 0 <= i < |status| && status[i].code == c && Qualifies(status[i])
      {
        if c in SubServices(init) {
          var i :| 0 <= i < |init| && init[i].code == c && Qualifies(init[i]);
          assert status[i] == init[i];
        } else {
          assert status[|status| - 1].code == c;
        }
      }
    }
  }

  /** Every qualifying entry's code is in the result. */
  lemma {:induction false} SubServicesComplete(status: seq<Status>)
    ensures forall i :: 0 <= i < |status| && Qualifies(status[i]) ==> status[i].code in SubServices(status)
    decreases |status|
  {
    if status != [] {
      var init := status[..|status| - 1];
      SubServicesComplete(init);
      forall i | 0 <= i < |status| && Qualifies(status[i])
        ensures status[i].code in SubServices(status)
      {
        if i < |init| {
          assert init[i] == status[i];
        }
      }
    }
  }

  /** A code containing "switch" means `indexOf("switch") != -1`. */
  lemma QualifiesIff(e: Status)
    ensures Qualifies(e) <==> e.value.Bool? && exists i :: OccursAt(e.code, "switch", i)
  {
    ContainsIff(e.code, "switch");
  }
}
