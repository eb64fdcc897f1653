/** `updateFieldInObject` of utils.ts, over a string-to-string record. */
module Utils {

  /** The record that `updateFieldInObject` promises: the same keys, with
      `fieldToUpdate` (when it is a key) mapped to `valueToUpdate`. */
  function FieldUpdated(obj: map<string, string>, fieldToUpdate: string, valueToUpdate: string): map<string, string>
  {
    map key | key in obj :: if key == fieldToUpdate then valueToUpdate else obj[key]
  }

  /** `updateFieldInObject({fieldToUpdate, object, valueToUpdate})` (`object` is `obj` here): the
      `reduce` over the entries of `object`, copying each entry into a fresh
      accumulator and replacing the value of `fieldToUpdate`. The input is a
      value, so it is not changed. */
  method UpdateFieldInObject(fieldToUpdate: string, obj: map<string, string>, valueToUpdate: string)
    returns (acc: map<string, string>)
    ensures acc.Keys == obj.Keys
    ensures fieldToUpdate in obj ==> acc[fieldToUpdate] == valueToUpdate
    ensures forall key :: key in obj && key != fieldToUpdate ==> acc[key] == obj[key]
    ensures acc == FieldUpdated(obj, fieldToUpdate, valueToUpdate)
  {
    acc := map[];
    var pending := obj.Keys;
    while pending != {}
      invariant pending <= obj.Keys
      invariant acc.Keys == obj.Keys - pending
      invariant forall key :: key in acc ==> acc[key] == if key == fieldToUpdate then valueToUpdate else obj[key]
      decreases pending
    {
      var key :| key in pending;
      if key == fieldToUpdate {
        acc := acc[key := valueToUpdate];
      } else {
        acc := acc[key := obj[key]];
      }
      pending := pending - {key};
    }
  }

  /** Updating the same field to the same value a second time changes nothing. */
  lemma FieldUpdatedIdempotent(obj: map<string, string>, fieldToUpdate: string, valueToUpdate: string)
    ensures FieldUpdated(FieldUpdated(obj, fieldToUpdate, valueToUpdate), fieldToUpdate, valueToUpdate)
            == FieldUpdated(obj, fieldToUpdate, valueToUpdate)
  {
  }

  /** A field that is not a key leaves the record as it was. */
  lemma FieldUpdatedAbsentField(obj: map<string, string>, fieldToUpdate: string, valueToUpdate: string)
    requires fieldToUpdate !in obj
    ensures FieldUpdated(obj, fieldToUpdate, valueToUpdate) == obj
  {
  }
}
