/** The client record shared by the backend store, the admin view and the registration form. */
module Records {

  datatype Option<T> = None | Some(value: T)

  /** JavaScript's `x || ''` on a field that may be missing from the stored JSON. */
  function OrEmpty(o: Option<string>): (s: string)
    ensures s == "" <==> o.None? || o.value == ""
    ensures s != "" ==> o == Some(s)
  {
    match o
    case Some(v) => v
    case None => ""
  }

  /**
   * A registered client as stored in the `clients` collection. The optional
   * fields are `None` when the registration body did not carry them, since the
   * stored object is built by spreading that body.
   */
  datatype Client = Client(
    id: string,
    companyName: string,
    contactName: string,
    email: string,
    phone: Option<string>,
    gstin: string,
    clientType: string,
    address: Option<string>,
    city: Option<string>,
    state: Option<string>,
    pincode: Option<string>,
    registrationDate: string,
    status: string)
}
