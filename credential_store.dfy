/** The credential record and the one persisted slot that holds it. The
    settings page writes the slot; the upload and status pages read it through
    the same validation (their two `validateCredentials` helpers are
    identical). Browser local storage is a map from keys to payloads, and a
    payload is either the parsed record or something `JSON.parse` rejects. */
module CredentialStore {
  import opened JsSemantics

  /** One of the three fields of the record, as edited by the settings form. */
  datatype Field = ClientId | ClientSecret | ProductInstanceId

  datatype Credentials = Credentials(clientId: string, clientSecret: string, productInstanceId: string)
  {
    function Get(f: Field): string {
      match f
      case ClientId => clientId
      case ClientSecret => clientSecret
      case ProductInstanceId => productInstanceId
    }

    /** The record with field `f` replaced by `v` (the `{ ...credentials, f: v }`
        spread of the form's change handlers). */
    function With(f: Field, v: string): (r: Credentials)
      ensures r.Get(f) == v
      ensures forall g :: g != f ==> r.Get(g) == Get(g)
    {
      match f
      case ClientId => this.(clientId := v)
      case ClientSecret => this.(clientSecret := v)
      case ProductInstanceId => this.(productInstanceId := v)
    }
  }

  /** The settings form's initial, and cleared, contents. */
  const NoCredentials := Credentials("", "", "")

  /** All three fields are non-empty, i.e. each passes the source's truthiness test. */
  predicate Complete(c: Credentials) {
    c.clientId != "" && c.clientSecret != "" && c.productInstanceId != ""
  }

  /** What a stored string parses to. */
  datatype Payload = Malformed | Record(credentials: Credentials)

  type Items = map<string, Payload>

  /** The local-storage key of the credentials. */
  const SlotKey: string := "setu-credentials"

  /** `items` and `r` agree about key `k`. */
  predicate SameAt(items: Items, r: Items, k: string) {
    (k in items <==> k in r) && (k in items ==> items[k] == r[k])
  }

  /** `validateCredentials`: the stored record when the slot is present,
      parses and has all three fields non-empty; nothing otherwise. */
  function Validate(items: Items): (r: Option<Credentials>)
    ensures r.Some? <==> SlotKey in items && items[SlotKey].Record? && Complete(items[SlotKey].credentials)
    ensures r.Some? ==> items[SlotKey] == Record(r.value)
  {
    if SlotKey !in items then None
    else match items[SlotKey]
      case Malformed => None
      case Record(c) => if Complete(c) then Some(c) else None
  }

  /** The storage after `handleSave` with form contents `c`: a complete record
      is written to the slot, so that validation yields exactly `c`; an
      incomplete one leaves the storage as it was. No other key changes. */
  function Saved(items: Items, c: Credentials): (r: Items)
    ensures Complete(c) ==> Validate(r) == Some(c)
    ensures !Complete(c) ==> r == items
    ensures forall k :: k != SlotKey ==> SameAt(items, r, k)
  {
    if Complete(c) then items[SlotKey := Record(c)] else items
  }

  /** The storage after `handleClear`: the slot is gone, so validation yields
      nothing; no other key changes. */
  function Cleared(items: Items): (r: Items)
    ensures SlotKey !in r
    ensures Validate(r) == None
    ensures forall k :: k != SlotKey ==> SameAt(items, r, k)
  {
    items - {SlotKey}
  }

  /** The settings form after the on-mount load: a parsed record replaces the
      form, an absent or unparsable slot leaves `current` in place. */
  function Loaded(current: Credentials, items: Items): (r: Credentials)
    ensures SlotKey !in items || items[SlotKey].Malformed? ==> r == current
    ensures SlotKey in items && items[SlotKey].Record? ==> r == items[SlotKey].credentials
    ensures Validate(items).Some? ==> r == Validate(items).value
  {
    if SlotKey in items && items[SlotKey].Record? then items[SlotKey].credentials else current
  }

  /** Clearing twice leaves the storage as clearing once. */
  lemma ClearIdempotent(items: Items)
    ensures Cleared(Cleared(items)) == Cleared(items)
  {
  }

  /** A successful save is read back unchanged by the next on-mount load,
      whatever the form held before. */
  lemma LoadAfterSave(items: Items, c: Credentials, current: Credentials)
    requires Complete(c)
    ensures Loaded(current, Saved(items, c)) == c
  {
  }

  /** The process-wide local storage, shared by every page. */
  class BrowserStorage {
    var items: Items

    constructor (initial: Items)
      ensures items == initial
    {
      items := initial;
    }

    /** `localStorage.setItem(key, value)`. */
    method SetItem(key: string, value: Payload)
      modifies this
      ensures items == old(items)[key := value]
    {
      items := items[key := value];
    }

    /** `localStorage.removeItem(key)`. */
    method RemoveItem(key: string)
      modifies this
      ensures items == old(items) - {key}
    {
      items := items - {key};
    }
  }
}
