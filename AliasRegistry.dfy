/**
 * Spring's AliasRegistry contract: a registry of aliases, each pointing to the
 * canonical name of a component. A reference implementation holds the
 * alias-to-name table as a map that registerAlias and removeAlias update in
 * place; isAlias and getAliases are queries over it.
 */
module AliasRegistries {
  import opened Basics

  /** The two ways a registry operation ends: normally, or by throwing IllegalStateException. */
  datatype Outcome = Done | IllegalStateException

  /** The aliases `table` maps to `name` (direct aliases only). */
  ghost function AliasesOf(table: map<string, string>, name: string): set<string> {
    set alias | alias in table && table[alias] == name
  }

  class AliasRegistry {
    /** alias -> canonical name */
    var aliasMap: map<string, string>
    /** Whether registering an alias in use for another name may replace that mapping. */
    const allowAliasOverriding: bool

    constructor (allowAliasOverriding: bool)
      ensures aliasMap == map[]
      ensures this.allowAliasOverriding == allowAliasOverriding
    {
      aliasMap := map[];
      this.allowAliasOverriding := allowAliasOverriding;
    }

    /**
     * Whether `name` is registered as an alias, as opposed to being only the
     * name of a component: exactly when some name lists it among its aliases.
     */
    predicate IsAlias(name: string)
      reads this
      ensures IsAlias(name) <==> exists canonical :: name in AliasesOf(aliasMap, canonical)
    {
      assert name in aliasMap ==> name in AliasesOf(aliasMap, aliasMap[name]);
      name in aliasMap
    }

    /**
     * Register `alias` for the canonical `name`. Fails, leaving the registry
     * as it was, when the alias is already in use for another name and may
     * not be overridden.
     */
    method RegisterAlias(name: string, alias: string) returns (outcome: Outcome)
      modifies this
      ensures outcome == IllegalStateException <==>
        alias in old(aliasMap) && old(aliasMap)[alias] != name && !allowAliasOverriding
      ensures outcome == IllegalStateException ==> aliasMap == old(aliasMap)
      ensures outcome == Done ==> aliasMap == old(aliasMap)[alias := name]
      ensures outcome == Done ==> IsAlias(alias) && alias in AliasesOf(aliasMap, name)
    {
      if alias in aliasMap && aliasMap[alias] != name && !allowAliasOverriding {
        outcome := IllegalStateException;
      } else {
        aliasMap := aliasMap[alias := name];
        outcome := Done;
        assert alias in AliasesOf(aliasMap, name);
      }
    }

    /**
     * Remove `alias`. Fails, leaving the registry as it was, when no such
     * alias is registered; otherwise every other alias keeps its name.
     */
    method RemoveAlias(alias: string) returns (outcome: Outcome)
      modifies this
      ensures outcome == IllegalStateException <==> alias !in old(aliasMap)
      ensures outcome == IllegalStateException ==> aliasMap == old(aliasMap)
      ensures outcome == Done ==> aliasMap == old(aliasMap) - {alias}
      ensures !IsAlias(alias)
      ensures forall a :: a in old(aliasMap) && a != alias ==> a in aliasMap && aliasMap[a] == old(aliasMap)[a]
    {
      if alias in aliasMap {
        aliasMap := aliasMap - {alias};
        outcome := Done;
      } else {
        outcome := IllegalStateException;
      }
    }

    /**
     * The aliases registered for `name`, each once, in no particular order;
     * empty exactly when `name` has none.
     */
    method GetAliases(name: string) returns (aliases: seq<string>)
      ensures forall a :: a in aliases <==> a in aliasMap && aliasMap[a] == name
      ensures Distinct(aliases)
      ensures aliases == [] <==> AliasesOf(aliasMap, name) == {}
    {
      aliases := [];
      var pending := aliasMap.Keys;
      while pending != {}
        invariant pending <= aliasMap.Keys
        invariant forall a :: a in aliases <==> a in aliasMap && a !in pending && aliasMap[a] == name
        invariant Distinct(aliases)
        decreases pending
      {
        var a :| a in pending;
        if aliasMap[a] == name {
          aliases := aliases + [a];
        }
        pending := pending - {a};
      }
      if aliases == [] {
        assert forall a :: a !in AliasesOf(aliasMap, name);
      } else {
        assert aliases[0] in AliasesOf(aliasMap, name);
      }
    }
  }

  /**
   * Registering an alias for `name` adds it to the aliases of `name`, takes
   * it away from whatever name it pointed to before, and leaves the aliases
   * of every other name as they were.
   */
  lemma RegisterMovesAlias(table: map<string, string>, name: string, alias: string, other: string)
    ensures AliasesOf(table[alias := name], name) == AliasesOf(table, name) + {alias}
    ensures other != name ==> AliasesOf(table[alias := name], other) == AliasesOf(table, other) - {alias}
  {
  }

  /** Removing an alias takes it out of the aliases of its name and of no other name. */
  lemma RemoveDropsOnlyThatAlias(table: map<string, string>, alias: string, name: string)
    ensures AliasesOf(table - {alias}, name) == AliasesOf(table, name) - {alias}
  {
  }

  /** Removing a freshly registered alias gives back the table as it was before. */
  lemma RemoveUndoesRegister(table: map<string, string>, name: string, alias: string)
    requires alias !in table
    ensures table[alias := name] - {alias} == table
  {
  }

  /**
   * A name that is only the canonical name of some alias, and not itself
   * registered as an alias, is not an alias.
   */
  lemma CanonicalNameIsNotAlias(registry: AliasRegistry, name: string)
    requires name in registry.aliasMap.Values && name !in registry.aliasMap
    ensures !registry.IsAlias(name)
  {
  }
}
