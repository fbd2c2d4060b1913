/**
 The crate's storage helpers `save` and `load`, used through prefixed
 sub-stores. Their source file is not part of this model: a save is taken to
 overwrite one (namespace, key) slot, and a load to return the saved value or
 to fail with `NotFound`.
 */
module State {
  import opened Cosmwasm

  /** A key inside a prefixed sub-store: the namespace and the key within it. */
  datatype Slot = Slot(namespace: string, key: string)

  /** A snapshot of the contract's storage. */
  type Store = map<Slot, string>

  /** `load`: read a stored value. A load of an absent slot is assumed to fail
      with `NotFound`. */
  function Load(s: Store, namespace: string, key: string): (r: StdResult<string>)
    ensures r.Ok? <==> Slot(namespace, key) in s
    ensures r.Ok? ==> r.value == s[Slot(namespace, key)]
    ensures r.Err? ==> r.error == NotFound
  {
    if Slot(namespace, key) in s then Ok(s[Slot(namespace, key)]) else Err(NotFound)
  }

  /** The contract's mutable storage. */
  class Storage {
    var entries: Store

    constructor (initial: Store)
      ensures entries == initial
    {
      entries := initial;
    }

    /** `save` through a `PrefixedStorage` for `namespace`: overwrites one slot. */
    method Save(namespace: string, key: string, value: string)
      modifies this
      ensures entries == old(entries)[Slot(namespace, key) := value]
    {
      entries := entries[Slot(namespace, key) := value];
    }
  }
}
