/** The `addresses`, `loading` and `error` state of the `useAddresses` hook
    and how each action changes it once the backend has answered. */
module UseAddresses {
  import opened JsValues
  import opened Records
  import opened Remote

  /** The list `fetchAddresses` ends with: empty on a 404, on any error
      and on data that is not an array. */
  function FetchedAddresses(reply: ListReply): (r: seq<Record>)
    ensures r != [] ==> reply.status != 404 && reply.error.None? && reply.data == Some(r)
    ensures reply.status != 404 && reply.error.None? && reply.data.Some? ==> r == reply.data.value
  {
    if reply.status == 404 || reply.error.Some? || reply.data.None? then [] else reply.data.value
  }

  /** The `error` `fetchAddresses` ends with: only an error that is not
      about a missing table is kept, and a 404 wins over any error. */
  function FetchError(reply: ListReply): (e: Option<RemoteError>)
    ensures e.Some? <==> reply.status != 404 && reply.error.Some? && !reply.error.value.missingTable
    ensures e.Some? ==> e == reply.error
  {
    if reply.status != 404 && reply.error.Some? && !reply.error.value.missingTable then reply.error else None
  }

  class AddressBook {
    var addresses: seq<Record>
    var loading: bool
    var error: Option<RemoteError>

    /** `useState([])`, `useState(false)`, `useState(null)`. */
    constructor ()
      ensures addresses == [] && !loading && error == None
    {
      addresses := [];
      loading := false;
      error := None;
    }

    /** `fetchAddresses()` (useAddresses.js:11-51).  Without a user id the
        list is emptied and no query is made. */
    method FetchAddresses(user: Option<User>, reply: ListReply) returns (queried: bool)
      modifies this
      ensures queried <==> HasUserId(user)
      ensures !HasUserId(user) ==> addresses == [] && loading == old(loading) && error == old(error)
      ensures HasUserId(user) ==> addresses == FetchedAddresses(reply) && error == FetchError(reply) && !loading
    {
      if !HasUserId(user) {
        addresses := [];
        return false;
      }
      queried := true;
      loading := true;
      error := None;
      if reply.status == 404 {
        addresses := [];
        loading := false;
        return;
      }
      if reply.error.Some? {
        if reply.error.value.missingTable {
          addresses := [];
        } else {
          error := reply.error;
          addresses := [];
        }
        loading := false;
        return;
      }
      addresses := if reply.data.Some? then reply.data.value else [];
      loading := false;
    }

    /** `addAddress(addressData)`: without a user id, the not-signed-in
        error and no insert; otherwise `{ user_id, ...addressData }` is
        inserted and a row returned without error is prepended. */
    method AddAddress(user: Option<User>, addressData: Record, reply: RowReply) returns (result: CallResult, sent: Option<Record>)
      modifies this`addresses
      ensures !HasUserId(user) ==> result == CallResult(None, Some(Message(NotSignedInMessage))) && sent == None
      ensures !HasUserId(user) ==> addresses == old(addresses)
      ensures HasUserId(user) ==> sent == Some(WithUserId(user.value.id, addressData)) && result == Passthrough(reply)
      ensures HasUserId(user) ==>
                addresses == if reply.error.None? && reply.data.Some? then [reply.data.value] + old(addresses) else old(addresses)
    {
      if !HasUserId(user) {
        return CallResult(None, Some(Message(NotSignedInMessage))), None;
      }
      sent := Some(WithUserId(user.value.id, addressData));
      if reply.error.None? && reply.data.Some? {
        addresses := [reply.data.value] + addresses;
      }
      result := Passthrough(reply);
    }

    /** `updateAddress(addressId, updates)`: a row returned without error
        replaces every entry with that id; nothing else changes locally. */
    method UpdateAddress(user: Option<User>, addressId: Value, updates: Record, reply: RowReply) returns (result: CallResult)
      modifies this`addresses
      ensures !HasUserId(user) ==> result == CallResult(None, Some(Message(NotSignedInMessage))) && addresses == old(addresses)
      ensures HasUserId(user) ==> result == Passthrough(reply)
      ensures HasUserId(user) ==>
                addresses == if reply.error.None? && reply.data.Some? then ReplaceWhereId(old(addresses), addressId, reply.data.value) else old(addresses)
    {
      if !HasUserId(user) {
        return CallResult(None, Some(Message(NotSignedInMessage)));
      }
      if reply.error.None? && reply.data.Some? {
        addresses := ReplaceWhereId(addresses, addressId, reply.data.value);
      }
      result := Passthrough(reply);
    }

    /** `deleteAddress(addressId)`: no user check; on success every entry
        with that id is filtered out, on error the list is unchanged. */
    method DeleteAddress(addressId: Value, replyError: Option<RemoteError>) returns (result: Option<Failure>)
      modifies this`addresses
      ensures result == BackendError(replyError)
      ensures addresses == if replyError.None? then WithoutId(old(addresses), addressId) else old(addresses)
    {
      if replyError.None? {
        addresses := WithoutId(addresses, addressId);
      }
      result := BackendError(replyError);
    }
  }

  /** Clearing the other defaults happens only in the backend: after a
      successful update that makes an address the default, an entry that
      was the default locally still is, so the local list holds two
      defaults and the checkout preselects whichever comes first. */
  lemma UpdateLeavesOtherDefaults(addresses: seq<Record>, addressId: Value, row: Record, i: nat, j: nat)
    requires i < |addresses| && j < |addresses|
    requires IdOf(addresses[i]) == addressId && IdOf(addresses[j]) != addressId
    requires Truthy(Get(row, "is_default")) && Truthy(Get(addresses[j], "is_default"))
    ensures var r := ReplaceWhereId(addresses, addressId, row);
            && i != j
            && Truthy(Get(r[i], "is_default"))
            && Truthy(Get(r[j], "is_default"))
  {
  }

  /** A successful delete leaves no entry with that id and keeps the order
      of what remains; deleting an unknown id changes nothing. */
  lemma DeleteFiltersId(addresses: seq<Record>, addressId: Value, a: seq<Record>, b: seq<Record>)
    requires addresses == a + b
    ensures forall j :: 0 <= j < |WithoutId(addresses, addressId)| ==> IdOf(WithoutId(addresses, addressId)[j]) != addressId
    ensures WithoutId(addresses, addressId) == WithoutId(a, addressId) + WithoutId(b, addressId)
    ensures (forall j :: 0 <= j < |addresses| ==> IdOf(addresses[j]) != addressId) ==> WithoutId(addresses, addressId) == addresses
  {
    WithoutIdHasNoId(addresses, addressId);
    WithoutIdAppend(a, b, addressId);
    if forall j :: 0 <= j < |addresses| ==> IdOf(addresses[j]) != addressId {
      WithoutAbsentId(addresses, addressId);
    }
  }
}
