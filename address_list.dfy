/** A customer's address list and the edits the address handlers make to it
  * (customer-service/controllers/customerController.js: `addAddress`, `updateAddress`,
  * `deleteAddress`): the lookup by `_id`, the clearing of `isDefault` flags, the append,
  * the per-key update and the removal, as functions on the list. */
module AddressList {
  import opened Outcomes
  import opened Text
  import opened CustomerModel

  const ADDRESS_NOT_FOUND := "Address not found"
  /** The TypeError of `address._id.toString()` on an address without `_id`. */
  const NO_ADDRESS_ID := "Cannot read properties of undefined (reading 'toString')"

  // ---------------------------------------------------------------------------------
  // The lookup

  /** `findIndex(address => address._id.toString() === key)` from position `from`: the
    * first address whose id is `key`, a crash at the first address without an id
    * before that, or 404 when the list runs out. */
  function LocateFrom(addrs: seq<Address>, key: string, from: nat): (r: Reply<nat>)
    requires from <= |addrs|
    ensures r.Ok? ==> from <= r.value < |addrs|
    decreases |addrs| - from
  {
    if from == |addrs| then Err(Http(NOT_FOUND, ADDRESS_NOT_FOUND))
    else if addrs[from].id.None? then Err(Crash(NO_ADDRESS_ID))
    else if addrs[from].id.value == key then Ok(from)
    else LocateFrom(addrs, key, from + 1)
  }

  function Locate(addrs: seq<Address>, key: string): (r: Reply<nat>)
    ensures r.Ok? ==> r.value < |addrs|
  {
    LocateFrom(addrs, key, 0)
  }

  /** The addresses before `k` all have an id, and none of them is `key`. */
  predicate PassedBy(addrs: seq<Address>, key: string, k: nat)
    requires k <= |addrs|
  {
    forall i :: 0 <= i < k ==> addrs[i].id.Some? && addrs[i].id.value != key
  }

  /** The lookup finds `k` exactly when `k` is the first position with id `key` and
    * every earlier address has an id; it answers 404 exactly when every address has an
    * id other than `key`; otherwise it crashes. */
  lemma {:induction false} LocateFromSpec(addrs: seq<Address>, key: string, from: nat)
    requires from <= |addrs|
    requires PassedBy(addrs, key, from)
    ensures var r := LocateFrom(addrs, key, from);
      && (r.Ok? ==> from <= r.value < |addrs| && addrs[r.value].id == Some(key) && PassedBy(addrs, key, r.value))
      && (r == Err(Http(NOT_FOUND, ADDRESS_NOT_FOUND)) <==> PassedBy(addrs, key, |addrs|))
      && (r.Err? ==> r == Err(Http(NOT_FOUND, ADDRESS_NOT_FOUND)) || r == Err(Crash(NO_ADDRESS_ID)))
    decreases |addrs| - from
  {
    if from < |addrs| && addrs[from].id.Some? && addrs[from].id.value != key {
      LocateFromSpec(addrs, key, from + 1);
    }
  }

  lemma LocateSpec(addrs: seq<Address>, key: string)
    ensures var r := Locate(addrs, key);
      && (r.Ok? ==> r.value < |addrs| && addrs[r.value].id == Some(key) && PassedBy(addrs, key, r.value))
      && (r == Err(Http(NOT_FOUND, ADDRESS_NOT_FOUND)) <==> PassedBy(addrs, key, |addrs|))
      && (r.Err? ==> r == Err(Http(NOT_FOUND, ADDRESS_NOT_FOUND)) || r == Err(Crash(NO_ADDRESS_ID)))
  {
    LocateFromSpec(addrs, key, 0);
  }

  /** On a list without ids (all this service ever stores, since address subdocuments
    * are declared with `_id: false`) the lookup never finds anything: 404 on an empty
    * list and a crash on any other. */
  lemma LocateWithoutIds(addrs: seq<Address>, key: string)
    requires forall i :: 0 <= i < |addrs| ==> addrs[i].id.None?
    ensures Locate(addrs, key) == if addrs == [] then Err(Http(NOT_FOUND, ADDRESS_NOT_FOUND)) else Err(Crash(NO_ADDRESS_ID))
  {
  }

  // ---------------------------------------------------------------------------------
  // Defaults

  /** At most one address is the default. */
  predicate AtMostOneDefault(addrs: seq<Address>) {
    forall i, j :: 0 <= i < |addrs| && 0 <= j < |addrs| && addrs[i].isDefault && addrs[j].isDefault ==> i == j
  }

  /** Address `k` is the default and no other is. */
  predicate OnlyDefault(addrs: seq<Address>, k: nat) {
    && k < |addrs| && addrs[k].isDefault
    && forall i :: 0 <= i < |addrs| && addrs[i].isDefault ==> i == k
  }

  /** The `forEach` that sets `isDefault = false` on every address, except the one at
    * `keep` when there is one. */
  function Cleared(addrs: seq<Address>, keep: Option<nat>): seq<Address> {
    seq(|addrs|, i requires 0 <= i < |addrs| => if keep == Some(i) then addrs[i] else addrs[i].(isDefault := false))
  }

  /** Clearing keeps the length and every field but the flag, and leaves no default
    * except possibly the kept address. */
  lemma ClearedSpec(addrs: seq<Address>, keep: Option<nat>)
    ensures var r := Cleared(addrs, keep);
      && |r| == |addrs|
      && (forall i :: 0 <= i < |addrs| ==> r[i].(isDefault := addrs[i].isDefault) == addrs[i])
      && (forall i :: 0 <= i < |addrs| && keep != Some(i) ==> !r[i].isDefault)
      && (keep.Some? && keep.value < |addrs| ==> r[keep.value] == addrs[keep.value])
  {
  }

  // ---------------------------------------------------------------------------------
  // addAddress: clear the flags when the new address is the default, then push

  function Appended(addrs: seq<Address>, a: Address): seq<Address> {
    (if a.isDefault then Cleared(addrs, None) else addrs) + [a]
  }

  /** The list grows by exactly the new address at the end; a new default becomes the
    * only default, and otherwise the existing flags are untouched. */
  lemma {:induction false} AppendedSpec(addrs: seq<Address>, a: Address)
    ensures var r := Appended(addrs, a);
      && |r| == |addrs| + 1 && r[|addrs|] == a
      && (forall i :: 0 <= i < |addrs| ==> r[i].(isDefault := addrs[i].isDefault) == addrs[i])
      && (a.isDefault ==> OnlyDefault(r, |addrs|))
      && (!a.isDefault ==> r == addrs + [a])
  {
    ClearedSpec(addrs, None);
  }

  /** Adding an address keeps at most one default. */
  lemma AppendedKeepsOneDefault(addrs: seq<Address>, a: Address)
    requires AtMostOneDefault(addrs)
    ensures AtMostOneDefault(Appended(addrs, a))
  {
    AppendedSpec(addrs, a);
  }

  // ---------------------------------------------------------------------------------
  // updateAddress: assign the body's keys, then clear the other flags when the body
  // sets `isDefault`

  /** The keys of an update body; `None` is a key the body does not have. */
  datatype AddressPatch = AddressPatch(
    street: Option<string>,
    city: Option<string>,
    state: Option<string>,
    zipCode: Option<string>,
    country: Option<string>,
    isDefault: Option<bool>)

  /** The per-key assignment, with the `trim` setter on the strings. */
  function Assigned(a: Address, u: AddressPatch): Address {
    Address(
      a.id,
      if u.street.Some? then Trim(u.street.value) else a.street,
      if u.city.Some? then Trim(u.city.value) else a.city,
      if u.state.Some? then Trim(u.state.value) else a.state,
      if u.zipCode.Some? then Trim(u.zipCode.value) else a.zipCode,
      if u.country.Some? then Trim(u.country.value) else a.country,
      u.isDefault.GetOr(a.isDefault))
  }

  function Edited(addrs: seq<Address>, k: nat, u: AddressPatch): seq<Address>
    requires k < |addrs|
  {
    var e := addrs[k := Assigned(addrs[k], u)];
    if u.isDefault == Some(true) then Cleared(e, Some(k)) else e
  }

  /** The length is kept and only address `k` takes the body's keys; when the body sets
    * `isDefault` it becomes the only default, and otherwise every other address is
    * untouched. */
  lemma {:induction false} EditedSpec(addrs: seq<Address>, k: nat, u: AddressPatch)
    requires k < |addrs|
    ensures var r := Edited(addrs, k, u);
      && |r| == |addrs| && r[k] == Assigned(addrs[k], u)
      && (forall i :: 0 <= i < |addrs| && i != k ==> r[i].(isDefault := addrs[i].isDefault) == addrs[i])
      && (u.isDefault == Some(true) ==> OnlyDefault(r, k))
      && (u.isDefault != Some(true) ==> forall i :: 0 <= i < |addrs| && i != k ==> r[i] == addrs[i])
  {
    var e := addrs[k := Assigned(addrs[k], u)];
    ClearedSpec(e, Some(k));
  }

  /** Editing an address keeps at most one default. */
  lemma EditedKeepsOneDefault(addrs: seq<Address>, k: nat, u: AddressPatch)
    requires k < |addrs|
    requires AtMostOneDefault(addrs)
    ensures AtMostOneDefault(Edited(addrs, k, u))
  {
    EditedSpec(addrs, k, u);
  }

  // ---------------------------------------------------------------------------------
  // deleteAddress: `splice(k, 1)`

  function Removed(addrs: seq<Address>, k: nat): seq<Address>
    requires k < |addrs|
  {
    addrs[..k] + addrs[k + 1..]
  }

  /** Only address `k` goes; the others keep their order, and at most one default stays
    * at most one. */
  lemma RemovedSpec(addrs: seq<Address>, k: nat)
    requires k < |addrs|
    ensures var r := Removed(addrs, k);
      && |r| == |addrs| - 1
      && (forall i :: 0 <= i < k ==> r[i] == addrs[i])
      && (forall i :: k <= i < |r| ==> r[i] == addrs[i + 1])
      && multiset(r) + multiset{addrs[k]} == multiset(addrs)
      && (AtMostOneDefault(addrs) ==> AtMostOneDefault(r))
  {
    var r := Removed(addrs, k);
    assert addrs == addrs[..k] + [addrs[k]] + addrs[k + 1..];
    if AtMostOneDefault(addrs) {
      forall i, j | 0 <= i < |r| && 0 <= j < |r| && r[i].isDefault && r[j].isDefault
        ensures i == j
      {
        var i' := if i < k then i else i + 1;
        var j' := if j < k then j else j + 1;
        assert r[i] == addrs[i'] && r[j] == addrs[j'];
      }
    }
  }
}
