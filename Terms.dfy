/**
 * The terms-and-conditions dialog (components/TermsModal.js): a `show` flag kept
 * in step with the `husky_terms_accepted` key of the browser's `localStorage`,
 * which outlives every mount of the dialog.
 */
module Terms {

  const AcceptedKey: string := "husky_terms_accepted"

  /** The browser's `localStorage`: string keys to string values. */
  class LocalStorage {
    var items: map<string, string>

    constructor (items: map<string, string>)
      ensures this.items == items
    {
      this.items := items;
    }
  }

  /** `!localStorage.getItem(key)`: the key is missing or holds the empty string. */
  predicate NotAccepted(items: map<string, string>)
    ensures AcceptedKey !in items ==> NotAccepted(items)
    ensures AcceptedKey in items && items[AcceptedKey] == "" ==> NotAccepted(items)
    ensures AcceptedKey in items && items[AcceptedKey] != "" ==> !NotAccepted(items)
  {
    AcceptedKey !in items || items[AcceptedKey] == ""
  }

  class TermsModal {
    const storage: LocalStorage
    var show: bool

    /** `useState(false)`: hidden until the mount effect has run. */
    constructor (storage: LocalStorage)
      ensures this.storage == storage && !show
    {
      this.storage := storage;
      show := false;
    }

    /** The mount effect: show the dialog unless the terms were accepted. */
    method Mount()
      modifies this`show
      ensures show == (old(show) || NotAccepted(storage.items))
    {
      if NotAccepted(storage.items) {
        show := true;
      }
    }

    /** `handleAccept`: remember the acceptance and hide the dialog. */
    method Accept()
      modifies storage, this`show
      ensures storage.items == old(storage.items)[AcceptedKey := "true"]
      ensures !show
    {
      storage.items := storage.items[AcceptedKey := "true"];
      show := false;
    }

    /** The dialog is rendered (rather than `null`) exactly while `show` holds. */
    predicate Rendered()
      reads this
      ensures Rendered() <==> show
    {
      show
    }
  }

  /** A first visit shows the dialog; once accepted, it is hidden and a later mount keeps it hidden. */
  method AcceptThenRemount(items: map<string, string>) returns (first: bool, afterAccept: bool, remounted: bool)
    requires AcceptedKey !in items
    ensures first && !afterAccept && !remounted
  {
    var storage := new LocalStorage(items);
    var modal := new TermsModal(storage);
    modal.Mount();
    first := modal.Rendered();
    modal.Accept();
    afterAccept := modal.Rendered();
    var later := new TermsModal(storage);
    later.Mount();
    remounted := later.Rendered();
  }

  /** Accepting twice leaves the store and the flag as accepting once did. */
  method AcceptTwice(items: map<string, string>) returns (once: map<string, string>, twice: map<string, string>, shown: bool)
    ensures once == twice && !shown
    ensures AcceptedKey in once && once[AcceptedKey] == "true"
  {
    var storage := new LocalStorage(items);
    var modal := new TermsModal(storage);
    modal.Mount();
    modal.Accept();
    once := storage.items;
    modal.Accept();
    twice := storage.items;
    shown := modal.Rendered();
  }

  /** A stored empty string does not count as acceptance: the dialog shows again. */
  method EmptyValueShows(items: map<string, string>) returns (shown: bool)
    requires AcceptedKey in items && items[AcceptedKey] == ""
    ensures shown
  {
    var storage := new LocalStorage(items);
    var modal := new TermsModal(storage);
    modal.Mount();
    shown := modal.Rendered();
  }
}
