// The browser's localStorage under the key 'estimates'. Serialising with
// JSON.stringify and reading back with JSON.parse is taken to give back the
// same list, so the stored value is the list itself; an absent key is None.

module Storage {
  import opened Types
  import opened Constants

  class LocalStorage {
    var estimates: Option<seq<Estimate>>

    constructor (initial: Option<seq<Estimate>>)
      ensures estimates == initial
    {
      estimates := initial;
    }
  }

  /** `saved ? JSON.parse(saved) : MOCK_ESTIMATES`: the stored list, or the seed list when nothing is stored. */
  function StoredOrSeed(saved: Option<seq<Estimate>>): (r: seq<Estimate>)
    ensures saved.Some? ==> r == saved.value
    ensures saved.None? ==> r == MockEstimates
  {
    saved.GetOr(MockEstimates)
  }
}
