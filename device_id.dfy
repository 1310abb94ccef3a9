/** The stable per-installation device identifier, kept in the SDK's preference store. */
module DeviceIdentity {

  /** Key under which the identifier is stored (in the preference file `linkio_prefs`). */
  const DeviceIdKey := "device_id"

  /** The identifier to use and the store afterwards: the stored identifier when there is
      one, otherwise the fresh identifier, which is then stored. No other key is touched. */
  function GetOrCreate(store: map<string, string>, freshId: string): (r: (string, map<string, string>))
    ensures DeviceIdKey in r.1 && r.1[DeviceIdKey] == r.0
    ensures forall k :: k != DeviceIdKey ==> (k in r.1 <==> k in store)
    ensures forall k :: k != DeviceIdKey && k in store ==> r.1[k] == store[k]
    ensures DeviceIdKey in store ==> r.0 == store[DeviceIdKey] && r.1 == store
    ensures DeviceIdKey !in store ==> r.0 == freshId
  {
    if DeviceIdKey in store then (store[DeviceIdKey], store)
    else (freshId, store[DeviceIdKey := freshId])
  }

  /** Once an identifier has been handed out, every later call hands out the same one and
      leaves the store as it is, whatever fresh identifier it is offered. */
  lemma GetOrCreateIsStable(store: map<string, string>, freshId: string, laterFreshId: string)
    ensures var (id, after) := GetOrCreate(store, freshId);
      GetOrCreate(after, laterFreshId) == (id, after)
  {
  }

  /** The platform's key-value preference store, written in place. */
  class Preferences {
    var entries: map<string, string>

    constructor (entries: map<string, string>)
      ensures this.entries == entries
    {
      this.entries := entries;
    }
  }
}
