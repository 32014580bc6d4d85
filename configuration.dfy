/**
 * The process-wide configuration table, filled at start-up from the configuration sections
 * and read by key. A later section overwrites an earlier one with the same key; nothing is
 * ever removed. Reading a key that was never written throws, so it is a precondition here.
 */
module Configuration {
  import opened Wrappers

  /** One configuration section: a key and its value, which may be null. */
  datatype ConfigSection = ConfigSection(key: string, value: Option<string>)

  /** The table after writing the sections in order. */
  function Applied(table: map<string, Option<string>>, configs: seq<ConfigSection>): map<string, Option<string>> {
    if configs == [] then table
    else Applied(table, configs[..|configs| - 1])[configs[|configs| - 1].key := configs[|configs| - 1].value]
  }

  /** The value of the last section with key `k`, if there is one. */
  function LastValue(configs: seq<ConfigSection>, k: string): Option<Option<string>> {
    if configs == [] then None
    else if configs[|configs| - 1].key == k then Some(configs[|configs| - 1].value)
    else LastValue(configs[..|configs| - 1], k)
  }

  class PGConfiguration {
    var keyValues: map<string, Option<string>>

    constructor()
      ensures keyValues == map[]
    {
      keyValues := map[];
    }

    /** Writes every section into the table, in order. */
    method SetKeyValues(configs: seq<ConfigSection>)
      modifies this
      ensures keyValues == Applied(old(keyValues), configs)
    {
      for i := 0 to |configs|
        invariant keyValues == Applied(old(keyValues), configs[..i])
      {
        assert configs[..i + 1][..i] == configs[..i];
        var config := configs[i];
        keyValues := keyValues[config.key := config.value];
      }
      assert configs[..|configs|] == configs;
    }

    /** The value stored under `key`; the key must be present. */
    function TryGetValue(key: string): (value: Option<string>)
      reads this
      requires key in keyValues
      ensures value == keyValues[key]
    {
      keyValues[key]
    }
  }

  /** After writing, a key holds the value of its last section, or its old value when no section names it. */
  lemma {:induction false} AppliedLookup(table: map<string, Option<string>>, configs: seq<ConfigSection>, k: string)
    ensures k in Applied(table, configs) <==> k in table || LastValue(configs, k).Some?
    ensures LastValue(configs, k).Some? ==> Applied(table, configs)[k] == LastValue(configs, k).value
    ensures LastValue(configs, k).None? && k in table ==> Applied(table, configs)[k] == table[k]
  {
    if configs != [] {
      AppliedLookup(table, configs[..|configs| - 1], k);
    }
  }

  function SectionKeys(configs: seq<ConfigSection>): set<string> {
    set i | 0 <= i < |configs| :: configs[i].key
  }

  /** Writing never removes a key, and the new keys are exactly those of the sections. */
  lemma {:induction false} AppliedKeys(table: map<string, Option<string>>, configs: seq<ConfigSection>)
    ensures Applied(table, configs).Keys == table.Keys + SectionKeys(configs)
  {
    if configs != [] {
      var init := configs[..|configs| - 1];
      AppliedKeys(table, init);
      assert SectionKeys(configs) == SectionKeys(init) + {configs[|configs| - 1].key} by {
        forall k | k in SectionKeys(configs)
          ensures k in SectionKeys(init) + {configs[|configs| - 1].key}
        {
          var i :| 0 <= i < |configs| && configs[i].key == k;
          if i < |init| {
            assert init[i].key == k;
          }
        }
      }
    }
  }

  /** The configuration example: two keys written, each read back; a third key is absent. */
  lemma SetAndReadExample()
    ensures var t := Applied(map[], [ConfigSection("Key1", Some("Value1")), ConfigSection("Key2", Some("Value2"))]);
            && t["Key1"] == Some("Value1") && t["Key2"] == Some("Value2") && "Random" !in t
  {
    var configs := [ConfigSection("Key1", Some("Value1")), ConfigSection("Key2", Some("Value2"))];
    assert configs[..1] == [ConfigSection("Key1", Some("Value1"))];
    assert configs[..1][..0] == [];
  }
}
