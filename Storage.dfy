/**
 * The browser's local storage: a key/value store of strings with no expiry.
 * Every component that reads or writes consent flags shares one instance.
 */
module Storage {
  import opened Basics

  /** `localStorage.getItem`: the stored string, or nothing. */
  function Lookup(entries: map<string, string>, key: string): Option<string>
  {
    if key in entries then Some(entries[key]) else None
  }

  /** The consent sentinel: only this exact string counts as "accepted". */
  const Accepted := "accepted"
  const Declined := "declined"

  /** A consent read grants consent only for the exact sentinel; absence or any other value does not. */
  predicate IsAccepted(v: Option<string>)
  {
    v == Some(Accepted)
  }

  class LocalStorage {
    var entries: map<string, string>

    constructor(initial: map<string, string>)
      ensures entries == initial
    {
      entries := initial;
    }

    function GetItem(key: string): Option<string>
      reads this
    {
      Lookup(entries, key)
    }

    method SetItem(key: string, value: string)
      modifies this
      ensures entries == old(entries)[key := value]
    {
      entries := entries[key := value];
    }
  }
}
