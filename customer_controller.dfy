/** The customer service's request handlers (customer-service/controllers/customerController.js)
  * over its customer collection, kept as a map from id to customer. Email lookups
  * (`findOne({ email })`) run the schema's setters on the filter, so they compare
  * normalised emails. */
module CustomerController {
  import opened Outcomes
  import opened Text
  import opened CustomerModel
  import opened AddressList

  const CUSTOMER_NOT_FOUND := "Customer not found"
  const CUSTOMER_EXISTS := "Customer with this email already exists"
  const FIELDS_REQUIRED := "Please provide all required fields"
  const EMAIL_IN_USE := "Email already in use"
  const ADDRESS_FIELDS_REQUIRED := "Please provide all required address fields"

  /** The body of `POST /api/customers`. A missing string is "". */
  datatype CustomerRequest = CustomerRequest(
    firstName: string,
    lastName: string,
    email: string,
    phone: string,
    addresses: Option<seq<AddressFields>>,
    dateOfBirth: Option<int>,
    notes: Option<string>)

  /** The guard of `createCustomer`. */
  predicate HasRequiredFields(q: CustomerRequest) {
    q.firstName != "" && q.lastName != "" && q.email != "" && q.phone != ""
  }

  /** What `createCustomer` hands to `Customer.create`: no addresses, no birth date and
    * empty notes when the body has none. */
  function DraftOf(q: CustomerRequest): Draft {
    Draft(q.firstName, q.lastName, q.email, q.phone, q.addresses.GetOr([]), q.dateOfBirth, q.notes.GetOr(""))
  }

  /** The guard of `addAddress`. */
  predicate HasAddressFields(a: AddressFields) {
    a.street != "" && a.city != "" && a.state != "" && a.zipCode != "" && a.country != ""
  }

  /** `findOne({ email: e })` finds a customer. */
  predicate EmailHeld(customers: map<CustomerId, Customer>, e: string) {
    exists id :: id in customers && customers[id].email == NormalizeEmail(e)
  }

  /** Every stored customer passed the schema, and the unique index on `email` holds. */
  predicate StoreValid(customers: map<CustomerId, Customer>) {
    && (forall id :: id in customers ==> Stored(customers[id]))
    && (forall a, b :: a in customers && b in customers && customers[a].email == customers[b].email ==> a == b)
  }

  function Find(customers: map<CustomerId, Customer>, id: CustomerId): (r: Reply<Customer>)
    ensures r.Ok? <==> id in customers
    ensures r.Ok? ==> r.value == customers[id]
    ensures r.Err? ==> r.error == Http(NOT_FOUND, CUSTOMER_NOT_FOUND)
  {
    if id in customers then Ok(customers[id]) else Err(Http(NOT_FOUND, CUSTOMER_NOT_FOUND))
  }

  /** `save()` of customer `id` changed to `c`: the schema's refusal, or the new
    * collection. */
  function Save(customers: map<CustomerId, Customer>, id: CustomerId, c: Customer)
    : (r: (map<CustomerId, Customer>, Reply<Customer>))
    ensures r.1.Ok? <==> ValidCustomer(c)
    ensures r.1.Ok? ==> r.0 == customers[id := c] && r.1.value == c
    ensures r.1.Err? ==> r.0 == customers && r.1.error.Schema?
  {
    match FirstViolation(c)
    case Some(m) => (customers, Err(Schema(m)))
    case None => (customers[id := c], Ok(c))
  }

  /** Replacing one customer by a stored customer with the same email keeps the
    * collection valid. */
  lemma SameEmailKeepsValid(customers: map<CustomerId, Customer>, id: CustomerId, c: Customer)
    requires StoreValid(customers) && id in customers
    requires Stored(c) && c.email == customers[id].email
    ensures StoreValid(customers[id := c])
  {
  }

  // ---------------------------------------------------------------------------------
  // updateCustomer

  /** `updateCustomer` on the collection: 404 for an unknown id; 400 when the body's
    * email differs from the stored one as written and `findOne` finds its normalised
    * form; otherwise the update validators on the written paths, then the merge. */
  function Updated(customers: map<CustomerId, Customer>, id: CustomerId, u: Patch)
    : (r: (map<CustomerId, Customer>, Reply<Customer>))
    ensures id !in customers ==> r == (customers, Err(Http(NOT_FOUND, CUSTOMER_NOT_FOUND)))
    ensures r.1.Err? ==> r.0 == customers
    ensures r.1.Ok? ==> id in customers && r.1.value == Merged(customers[id], u) && r.0 == customers[id := r.1.value]
  {
    if id !in customers then (customers, Err(Http(NOT_FOUND, CUSTOMER_NOT_FOUND)))
    else
      var c := customers[id];
      if u.email.Some? && u.email.value != "" && u.email.value != c.email && EmailHeld(customers, u.email.value) then
        (customers, Err(Http(BAD_REQUEST, EMAIL_IN_USE)))
      else match PatchViolation(u)
        case Some(m) => (customers, Err(Schema(m)))
        case None => (customers[id := Merged(c, u)], Ok(Merged(c, u)))
  }

  /** An update keeps the collection valid: it keeps every customer stored and no two
    * customers share an email. */
  lemma UpdatedKeepsValid(customers: map<CustomerId, Customer>, id: CustomerId, u: Patch)
    requires StoreValid(customers)
    ensures StoreValid(Updated(customers, id, u).0)
  {
    if id in customers && Updated(customers, id, u).1.Ok? {
      var c := customers[id];
      var m := Merged(c, u);
      PatchValid(c, u);
      assert Updated(customers, id, u).0 == customers[id := m];
      if u.email.None? || u.email.value == c.email {
        assert m.email == c.email;
      } else {
        assert !EmailHeld(customers, u.email.value);
        assert m.email == NormalizeEmail(u.email.value);
      }
      assert forall b :: b in customers && b != id ==> customers[b].email != m.email;
    }
  }

  /** Writing one's own email again in another case is refused as "already in use":
    * the comparison with the stored email is on the raw text, the lookup on the
    * normalised one, which finds the customer itself. */
  lemma RecasedOwnEmailRefused(customers: map<CustomerId, Customer>, id: CustomerId, u: Patch)
    requires id in customers
    requires u.email.Some? && u.email.value != "" && u.email.value != customers[id].email
    requires NormalizeEmail(u.email.value) == customers[id].email
    ensures Updated(customers, id, u) == (customers, Err(Http(BAD_REQUEST, EMAIL_IN_USE)))
  {
    assert EmailHeld(customers, u.email.value);
  }

  /** An email another customer holds, in any case and with any surrounding white
    * space, is refused. */
  lemma TakenEmailRefused(customers: map<CustomerId, Customer>, id: CustomerId, other: CustomerId, u: Patch)
    requires id in customers && other in customers && other != id
    requires StoreValid(customers)
    requires u.email.Some? && NormalizeEmail(u.email.value) == customers[other].email
    ensures Updated(customers, id, u).1 == Err(Http(BAD_REQUEST, EMAIL_IN_USE))
  {
    assert EmailHeld(customers, u.email.value);
  }

  // ---------------------------------------------------------------------------------
  // The address handlers

  /** `addAddress`: 400 when a field is missing (before the lookup), 404 for an unknown
    * customer, otherwise the new address appended and the customer saved. */
  function AddressAdded(customers: map<CustomerId, Customer>, id: CustomerId, a: AddressFields)
    : (r: (map<CustomerId, Customer>, Reply<Customer>))
    ensures r.1.Ok? ==> id in customers && r.0 == customers[id := r.1.value]
    ensures r.1.Err? ==> r.0 == customers
  {
    if !HasAddressFields(a) then (customers, Err(Http(BAD_REQUEST, ADDRESS_FIELDS_REQUIRED)))
    else if id !in customers then (customers, Err(Http(NOT_FOUND, CUSTOMER_NOT_FOUND)))
    else
      var c := customers[id];
      Save(customers, id, c.(addresses := Appended(c.addresses, CastAddress(a))))
  }

  /** `updateAddress`: 404 for an unknown customer, the lookup's 404 or crash, otherwise
    * the edited list saved. */
  function AddressEdited(customers: map<CustomerId, Customer>, id: CustomerId, key: string, u: AddressPatch)
    : (r: (map<CustomerId, Customer>, Reply<Customer>))
    ensures r.1.Ok? ==> id in customers && r.0 == customers[id := r.1.value]
    ensures r.1.Err? ==> r.0 == customers
  {
    if id !in customers then (customers, Err(Http(NOT_FOUND, CUSTOMER_NOT_FOUND)))
    else
      var c := customers[id];
      match Locate(c.addresses, key)
      case Err(f) => (customers, Err(f))
      case Ok(k) =>
        Save(customers, id, c.(addresses := Edited(c.addresses, k, u)))
  }

  /** `deleteAddress`: 404 for an unknown customer, the lookup's 404 or crash, otherwise
    * the list without the address, saved. */
  function AddressRemoved(customers: map<CustomerId, Customer>, id: CustomerId, key: string)
    : (r: (map<CustomerId, Customer>, Reply<Customer>))
    ensures r.1.Ok? ==> id in customers && r.0 == customers[id := r.1.value]
    ensures r.1.Err? ==> r.0 == customers
  {
    if id !in customers then (customers, Err(Http(NOT_FOUND, CUSTOMER_NOT_FOUND)))
    else
      var c := customers[id];
      match Locate(c.addresses, key)
      case Err(f) => (customers, Err(f))
      case Ok(k) =>
        Save(customers, id, c.(addresses := Removed(c.addresses, k)))
  }

  /** Saving a customer changed only in its address list keeps the collection valid. */
  lemma SavedAddressesKeepValid(customers: map<CustomerId, Customer>, id: CustomerId, addrs: seq<Address>)
    requires StoreValid(customers) && id in customers
    ensures StoreValid(Save(customers, id, customers[id].(addresses := addrs)).0)
  {
    var c := customers[id].(addresses := addrs);
    if FirstViolation(c).None? {
      SameEmailKeepsValid(customers, id, c);
    }
  }

  /** A new address is refused by the schema exactly when one of its trimmed fields is
    * empty (the guard only saw the untrimmed ones); accepted, it is appended, without
    * an id, and a default one becomes the customer's only default. */
  lemma {:induction false} AddressAddedSpec(customers: map<CustomerId, Customer>, id: CustomerId, a: AddressFields)
    requires StoreValid(customers) && id in customers && HasAddressFields(a)
    ensures var r := AddressAdded(customers, id, a);
      && (r.1.Ok? <==> ValidAddress(CastAddress(a)))
      && (r.1.Ok? ==>
            && r.0 == customers[id := r.1.value]
            && r.1.value.addresses == Appended(customers[id].addresses, CastAddress(a))
            && r.1.value.addresses[|customers[id].addresses|].id.None?
            && (a.isDefault == Some(true) ==> OnlyDefault(r.1.value.addresses, |customers[id].addresses|)))
  {
    var c := customers[id];
    var added := CastAddress(a);
    var addrs := Appended(c.addresses, added);
    AppendedSpec(c.addresses, added);
    var c' := c.(addresses := addrs);
    assert AddressAdded(customers, id, a) == Save(customers, id, c');
    forall i | 0 <= i < |c.addresses|
      ensures ValidAddress(addrs[i])
    {
      assert addrs[i].(isDefault := c.addresses[i].isDefault) == c.addresses[i];
    }
    assert ValidCustomer(c') <==> ValidAddress(addrs[|c.addresses|]);
  }

  /** On this service's own data, whose addresses carry no id, updating or deleting an
    * address never succeeds: a customer without addresses gets 404 and any other the
    * crash. */
  lemma AddressEditsFailWithoutIds(customers: map<CustomerId, Customer>, id: CustomerId, key: string, u: AddressPatch)
    requires id in customers
    requires forall i :: 0 <= i < |customers[id].addresses| ==> customers[id].addresses[i].id.None?
    ensures var failure := if customers[id].addresses == [] then Http(NOT_FOUND, ADDRESS_NOT_FOUND) else Crash(NO_ADDRESS_ID);
      && AddressEdited(customers, id, key, u) == (customers, Err(failure))
      && AddressRemoved(customers, id, key) == (customers, Err(failure))
  {
    LocateWithoutIds(customers[id].addresses, key);
  }

  /** The address handlers keep at most one default address on the customer they
    * change. */
  lemma AddressAddedKeepsOneDefault(customers: map<CustomerId, Customer>, id: CustomerId, a: AddressFields)
    requires id in customers && AtMostOneDefault(customers[id].addresses)
    ensures var r := AddressAdded(customers, id, a); r.1.Ok? ==> AtMostOneDefault(r.1.value.addresses)
  {
    AppendedKeepsOneDefault(customers[id].addresses, CastAddress(a));
  }

  lemma AddressEditedKeepsOneDefault(customers: map<CustomerId, Customer>, id: CustomerId, key: string, u: AddressPatch)
    requires id in customers && AtMostOneDefault(customers[id].addresses)
    ensures var r := AddressEdited(customers, id, key, u); r.1.Ok? ==> AtMostOneDefault(r.1.value.addresses)
  {
    var r := Locate(customers[id].addresses, key);
    if r.Ok? {
      EditedKeepsOneDefault(customers[id].addresses, r.value, u);
    }
  }

  lemma AddressRemovedKeepsOneDefault(customers: map<CustomerId, Customer>, id: CustomerId, key: string)
    requires id in customers && AtMostOneDefault(customers[id].addresses)
    ensures var r := AddressRemoved(customers, id, key); r.1.Ok? ==> AtMostOneDefault(r.1.value.addresses)
  {
    var r := Locate(customers[id].addresses, key);
    if r.Ok? {
      RemovedSpec(customers[id].addresses, r.value);
    }
  }

  /** `createCustomer` does not enforce a single default: a body with two default
    * addresses creates a customer with two. */
  lemma CreateKeepsSeveralDefaults(q: CustomerRequest, i: nat, j: nat)
    requires q.addresses.Some? && i < j < |q.addresses.value|
    requires q.addresses.value[i].isDefault == Some(true) && q.addresses.value[j].isDefault == Some(true)
    requires NewCustomer(DraftOf(q)).Ok?
    ensures !AtMostOneDefault(NewCustomer(DraftOf(q)).value.addresses)
  {
    var addrs := NewCustomer(DraftOf(q)).value.addresses;
    assert addrs[i].isDefault && addrs[j].isDefault;
  }

  /** No stored address carries an id. */
  predicate NoAddressIds(customers: map<CustomerId, Customer>) {
    forall id, i :: id in customers && 0 <= i < |customers[id].addresses| ==> customers[id].addresses[i].id.None?
  }

  predicate HasNoIds(addrs: seq<Address>) {
    forall i :: 0 <= i < |addrs| ==> addrs[i].id.None?
  }

  lemma StoreWithoutIds(customers: map<CustomerId, Customer>, id: CustomerId, c: Customer)
    requires NoAddressIds(customers) && HasNoIds(c.addresses)
    ensures NoAddressIds(customers[id := c])
  {
  }

  /** Addresses enter the collection only through `createCustomer`, `updateCustomer`
    * and `addAddress`, and none of them gives an address an id; so on this service's
    * own data the address lookup of `updateAddress` and `deleteAddress` never finds one
    * (`AddressEditsFailWithoutIds`). */
  lemma CreatedWithoutIds(customers: map<CustomerId, Customer>, id: CustomerId, q: CustomerRequest)
    requires NoAddressIds(customers)
    requires NewCustomer(DraftOf(q)).Ok?
    ensures NoAddressIds(customers[id := NewCustomer(DraftOf(q)).value])
  {
    StoreWithoutIds(customers, id, NewCustomer(DraftOf(q)).value);
  }

  lemma UpdatedWithoutIds(customers: map<CustomerId, Customer>, id: CustomerId, u: Patch)
    requires NoAddressIds(customers)
    ensures NoAddressIds(Updated(customers, id, u).0)
  {
    if id in customers && Updated(customers, id, u).1.Ok? {
      var m := Merged(customers[id], u);
      assert HasNoIds(m.addresses);
      StoreWithoutIds(customers, id, m);
    }
  }

  lemma AddedWithoutIds(customers: map<CustomerId, Customer>, id: CustomerId, a: AddressFields)
    requires NoAddressIds(customers)
    ensures NoAddressIds(AddressAdded(customers, id, a).0)
  {
    if HasAddressFields(a) && id in customers {
      var addrs := customers[id].addresses;
      AppendedSpec(addrs, CastAddress(a));
      var r := Appended(addrs, CastAddress(a));
      assert forall i :: 0 <= i < |addrs| ==> r[i].id == addrs[i].id;
      assert HasNoIds(r);
      StoreWithoutIds(customers, id, customers[id].(addresses := r));
    }
  }

  // ---------------------------------------------------------------------------------
  // The loops of the address handlers

  /** The `forEach` that clears `isDefault`, on every address but the one at `keep`. */
  method ClearDefaults(addrs: seq<Address>, keep: Option<nat>) returns (r: seq<Address>)
    ensures r == Cleared(addrs, keep)
  {
    r := addrs;
    for i := 0 to |addrs|
      invariant |r| == |addrs|
      invariant forall j :: 0 <= j < i ==> r[j] == Cleared(addrs, keep)[j]
      invariant forall j :: i <= j < |addrs| ==> r[j] == addrs[j]
    {
      if keep != Some(i) {
        r := r[i := r[i].(isDefault := false)];
      }
    }
  }

  /** `findIndex` over the addresses, comparing `_id.toString()` with `key`. */
  method FindAddressIndex(addrs: seq<Address>, key: string) returns (r: Reply<nat>)
    ensures r == Locate(addrs, key)
  {
    var i := 0;
    while i < |addrs|
      invariant 0 <= i <= |addrs|
      invariant Locate(addrs, key) == LocateFrom(addrs, key, i)
    {
      if addrs[i].id.None? {
        return Err(Crash(NO_ADDRESS_ID));
      }
      if addrs[i].id.value == key {
        return Ok(i);
      }
      i := i + 1;
    }
    r := Err(Http(NOT_FOUND, ADDRESS_NOT_FOUND));
  }

  // ---------------------------------------------------------------------------------
  // The customer collection and its handlers

  class Customers {
    var customers: map<CustomerId, Customer>
    var nextId: nat

    /** The collection is valid and the ids below `nextId` are the used ones. */
    ghost predicate Valid()
      reads this
    {
      StoreValid(customers) && forall id :: id in customers ==> id < nextId
    }

    constructor ()
      ensures Valid() && customers == map[]
    {
      customers := map[];
      nextId := 0;
    }

    /** `getCustomers`: every stored customer, unchanged. */
    method GetCustomers() returns (r: map<CustomerId, Customer>)
      ensures r.Keys == customers.Keys
      ensures forall id :: id in customers ==> r[id] == customers[id]
    {
      r := customers;
    }

    /** `getCustomerById`: 404 for an unknown id, otherwise the stored customer. */
    method GetCustomerById(id: CustomerId) returns (r: Reply<Customer>)
      ensures r == Find(customers, id)
    {
      if id !in customers {
        return Err(Http(NOT_FOUND, CUSTOMER_NOT_FOUND));
      }
      r := Ok(customers[id]);
    }

    /** `createCustomer`: 400 when the email is taken (checked first), 400 when a
      * required field is missing, the schema's refusal, or a new customer. */
    method CreateCustomer(q: CustomerRequest) returns (r: Reply<(CustomerId, Customer)>)
      requires Valid()
      modifies this
      ensures Valid()
      ensures EmailHeld(old(customers), q.email) ==> r == Err(Http(BAD_REQUEST, CUSTOMER_EXISTS))
      ensures !EmailHeld(old(customers), q.email) && !HasRequiredFields(q) ==> r == Err(Http(BAD_REQUEST, FIELDS_REQUIRED))
      ensures !EmailHeld(old(customers), q.email) && HasRequiredFields(q) && NewCustomer(DraftOf(q)).Err? ==>
        r == Err(NewCustomer(DraftOf(q)).error)
      ensures r.Ok? <==> !EmailHeld(old(customers), q.email) && HasRequiredFields(q) && NewCustomer(DraftOf(q)).Ok?
      ensures r.Err? ==> customers == old(customers) && nextId == old(nextId)
      ensures r.Ok? ==>
        && !EmailHeld(old(customers), q.email) && HasRequiredFields(q)
        && NewCustomer(DraftOf(q)) == Ok(r.value.1)
        && r.value.0 !in old(customers)
        && customers == old(customers)[r.value.0 := r.value.1]
    {
      if EmailHeld(customers, q.email) {
        return Err(Http(BAD_REQUEST, CUSTOMER_EXISTS));
      }
      if !HasRequiredFields(q) {
        return Err(Http(BAD_REQUEST, FIELDS_REQUIRED));
      }
      var created := NewCustomer(DraftOf(q));
      if created.Err? {
        return Err(created.error);
      }
      var id := nextId;
      customers := customers[id := created.value];
      nextId := nextId + 1;
      r := Ok((id, created.value));
    }

    /** `updateCustomer`: the collection and the reply are those of `Updated`. */
    method UpdateCustomer(id: CustomerId, u: Patch) returns (r: Reply<Customer>)
      requires Valid()
      modifies this
      ensures Valid() && nextId == old(nextId)
      ensures (customers, r) == Updated(old(customers), id, u)
    {
      UpdatedKeepsValid(customers, id, u);
      if id !in customers {
        return Err(Http(NOT_FOUND, CUSTOMER_NOT_FOUND));
      }
      var c := customers[id];
      if u.email.Some? && u.email.value != "" && u.email.value != c.email {
        if EmailHeld(customers, u.email.value) {
          return Err(Http(BAD_REQUEST, EMAIL_IN_USE));
        }
      }
      var violation := PatchViolation(u);
      if violation.Some? {
        return Err(Schema(violation.value));
      }
      customers := customers[id := Merged(c, u)];
      r := Ok(Merged(c, u));
    }

    /** `deleteCustomer`: 404 for an unknown id, otherwise only that customer is
      * removed and its id returned. */
    method DeleteCustomer(id: CustomerId) returns (r: Reply<CustomerId>)
      requires Valid()
      modifies this
      ensures Valid() && nextId == old(nextId)
      ensures id !in old(customers) ==> r == Err(Http(NOT_FOUND, CUSTOMER_NOT_FOUND)) && customers == old(customers)
      ensures id in old(customers) ==> r == Ok(id) && customers == old(customers) - {id}
    {
      if id !in customers {
        return Err(Http(NOT_FOUND, CUSTOMER_NOT_FOUND));
      }
      customers := customers - {id};
      r := Ok(id);
    }

    /** `save()` of customer `id` with the address list `addrs`. */
    method SaveAddresses(id: CustomerId, addrs: seq<Address>) returns (r: Reply<Customer>)
      requires Valid() && id in customers
      modifies this
      ensures Valid() && nextId == old(nextId)
      ensures (customers, r) == Save(old(customers), id, old(customers)[id].(addresses := addrs))
    {
      SavedAddressesKeepValid(customers, id, addrs);
      var c := customers[id].(addresses := addrs);
      var violation := FirstViolation(c);
      if violation.Some? {
        return Err(Schema(violation.value));
      }
      customers := customers[id := c];
      r := Ok(c);
    }

    /** `addAddress`: the collection and the reply are those of `AddressAdded`. */
    method AddAddress(id: CustomerId, a: AddressFields) returns (r: Reply<Customer>)
      requires Valid()
      modifies this
      ensures Valid() && nextId == old(nextId)
      ensures (customers, r) == AddressAdded(old(customers), id, a)
    {
      if !HasAddressFields(a) {
        return Err(Http(BAD_REQUEST, ADDRESS_FIELDS_REQUIRED));
      }
      if id !in customers {
        return Err(Http(NOT_FOUND, CUSTOMER_NOT_FOUND));
      }
      var added := CastAddress(a);
      var addrs := customers[id].addresses;
      if added.isDefault {
        addrs := ClearDefaults(addrs, None);
      }
      r := SaveAddresses(id, addrs + [added]);
    }

    /** `updateAddress`: the collection and the reply are those of `AddressEdited`. */
    method UpdateAddress(id: CustomerId, key: string, u: AddressPatch) returns (r: Reply<Customer>)
      requires Valid()
      modifies this
      ensures Valid() && nextId == old(nextId)
      ensures (customers, r) == AddressEdited(old(customers), id, key, u)
    {
      if id !in customers {
        return Err(Http(NOT_FOUND, CUSTOMER_NOT_FOUND));
      }
      var addrs := customers[id].addresses;
      var found := FindAddressIndex(addrs, key);
      if found.Err? {
        return Err(found.error);
      }
      var k := found.value;
      addrs := addrs[k := Assigned(addrs[k], u)];
      if u.isDefault == Some(true) {
        addrs := ClearDefaults(addrs, Some(k));
      }
      r := SaveAddresses(id, addrs);
    }

    /** `deleteAddress`: the collection and the reply are those of `AddressRemoved`. */
    method DeleteAddress(id: CustomerId, key: string) returns (r: Reply<Customer>)
      requires Valid()
      modifies this
      ensures Valid() && nextId == old(nextId)
      ensures (customers, r) == AddressRemoved(old(customers), id, key)
    {
      if id !in customers {
        return Err(Http(NOT_FOUND, CUSTOMER_NOT_FOUND));
      }
      var addrs := customers[id].addresses;
      var found := FindAddressIndex(addrs, key);
      if found.Err? {
        return Err(found.error);
      }
      var k := found.value;
      r := SaveAddresses(id, addrs[..k] + addrs[k + 1..]);
    }
  }
}
