/**
 * The session configuration `cfg map[string]string`, which both versions pass
 * by reference and update in place: a class holding the map.
 */
module ConfigMap {

  /** `m[k]` on a Go map of strings: "" when the key is absent. */
  function Get(m: map<string, string>, k: string): (v: string)
    ensures k in m ==> v == m[k]
    ensures k !in m ==> v == ""
  {
    if k in m then m[k] else ""
  }

  /** `provided[k]` on a Go map of flags: false for a key that was never marked. */
  function IsProvided(provided: map<string, bool>, k: string): bool {
    k in provided && provided[k]
  }

  class Cfg {
    var entries: map<string, string>

    constructor (init: map<string, string>)
      ensures entries == init
    {
      entries := init;
    }

    function Value(k: string): string
      reads this
    {
      Get(entries, k)
    }

    /** `cfg[k] = v` */
    method Put(k: string, v: string)
      modifies this
      ensures entries == old(entries)[k := v]
    {
      entries := entries[k := v];
    }
  }
}
