/** The settings page: a form holding one credential record, saved to and
    cleared from the shared storage slot. */
module SettingsPage {
  import opened JsSemantics
  import opened CredentialStore

  class Settings {
    var credentials: Credentials
    const storage: BrowserStorage

    /** The form starts with all three fields empty. */
    constructor (storage: BrowserStorage)
      ensures credentials == NoCredentials && this.storage == storage
    {
      credentials := NoCredentials;
      this.storage := storage;
    }

    /** The on-mount effect: a parsed slot replaces the form; an absent or
        malformed slot leaves the form as it is. Storage is only read. */
    method OnMount()
      modifies this
      ensures credentials == Loaded(old(credentials), storage.items)
    {
      if SlotKey in storage.items {
        match storage.items[SlotKey]
        case Malformed =>
        case Record(c) => credentials := c;
      }
    }

    /** One form field's change handler: that field takes the typed value,
        the other two keep theirs. */
    method Edit(f: Field, v: string)
      modifies this
      ensures credentials == old(credentials).With(f, v)
      ensures credentials.Get(f) == v
      ensures forall g :: g != f ==> credentials.Get(g) == old(credentials).Get(g)
    {
      credentials := credentials.With(f, v);
    }

    /** `handleSave`: refused, with the storage untouched, unless all fields
        are non-empty; otherwise the form contents are written to the slot.
        The form itself never changes. */
    method HandleSave() returns (saved: bool)
      modifies storage
      ensures saved == Complete(credentials)
      ensures storage.items == Saved(old(storage.items), credentials)
      ensures saved ==> Validate(storage.items) == Some(credentials)
      ensures !saved ==> storage.items == old(storage.items)
    {
      if credentials.clientId == "" || credentials.clientSecret == "" || credentials.productInstanceId == "" {
        return false;
      }
      storage.SetItem(SlotKey, Record(credentials));
      saved := true;
    }

    /** `handleClear`: the form is emptied and the slot removed, after which
        validation finds no credentials. */
    method HandleClear()
      modifies this, storage
      ensures credentials == NoCredentials
      ensures storage.items == Cleared(old(storage.items))
      ensures Validate(storage.items) == None
    {
      credentials := NoCredentials;
      storage.RemoveItem(SlotKey);
    }
  }

  /** Save, clear and validate, in the order of the documented scenario:
      a complete record validates after saving and not after clearing. */
  method SaveThenClear(storage: BrowserStorage) returns (before: bool, after: bool)
    modifies storage
    ensures before && !after
  {
    var page := new Settings(storage);
    page.Edit(ClientId, "c1");
    page.Edit(ClientSecret, "s1");
    page.Edit(ProductInstanceId, "p1");
    var saved := page.HandleSave();
    before := Validate(storage.items).Some?;
    page.HandleClear();
    after := Validate(storage.items).Some?;
  }
}
