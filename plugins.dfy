/**
 * `AnnotationProcessorPluginService`: the per-class-loader plugin service,
 * its cache of loaded plugins per plugin type, and the choice of the plugin
 * with the highest support priority.
 */
module Plugins {
  import opened Wrappers
  import Seqs

  /** A plugin implementation, known by its class name. */
  datatype Plugin = Plugin(className: string)

  /** A class loader, known by its name. */
  datatype ClassLoader = ClassLoader(name: string)

  // ---------------------------------------------------------------------------
  // The candidates: `toSet` keeps the first of equal plugins, in order
  // ---------------------------------------------------------------------------

  /** `toSet` on a list: each plugin once, at its first position. */
  function Deduplicated(s: seq<Plugin>): seq<Plugin> {
    if s == [] then []
    else
      var front := Deduplicated(s[..|s| - 1]);
      if s[|s| - 1] in front then front else front + [s[|s| - 1]]
  }

  /** `toSet` keeps exactly the plugins of the list, each once. */
  lemma {:induction false} DeduplicatedKeeps(s: seq<Plugin>)
    ensures forall p :: p in Deduplicated(s) <==> p in s
    ensures Seqs.Distinct(Deduplicated(s))
  {
    if s != [] {
      var front := s[..|s| - 1];
      DeduplicatedKeeps(front);
      assert s == front + [s[|s| - 1]];
    }
  }

  // ---------------------------------------------------------------------------
  // The choice: a stable sort by priority, then the last element
  // ---------------------------------------------------------------------------

  /**
   * Inserts `x` after every element whose priority is at most its own, that
   * is, before the first element of higher priority.
   */
  function InsertByPriority(sorted: seq<Plugin>, x: Plugin, priority: Plugin -> int): seq<Plugin> {
    if sorted == [] then [x]
    else if priority(sorted[0]) > priority(x) then [x] + sorted
    else [sorted[0]] + InsertByPriority(sorted[1..], x, priority)
  }

  /** `sortBy { priority }`: a stable sort, so plugins of equal priority keep their order. */
  function SortByPriority(s: seq<Plugin>, priority: Plugin -> int): seq<Plugin> {
    if s == [] then []
    else InsertByPriority(SortByPriority(s[..|s| - 1], priority), s[|s| - 1], priority)
  }

  /**
   * The reference definition of the choice: the position of the last plugin
   * whose priority is the highest.
   */
  function LastMaxIndex(s: seq<Plugin>, priority: Plugin -> int): (r: nat)
    requires s != []
    ensures r < |s|
  {
    if |s| == 1 then 0
    else
      var i := LastMaxIndex(s[..|s| - 1], priority);
      if priority(s[|s| - 1]) >= priority(s[i]) then |s| - 1 else i
  }

  /** The chosen position has the highest priority, and every later plugin a strictly lower one. */
  lemma {:induction false} LastMaxIndexIsLastMax(s: seq<Plugin>, priority: Plugin -> int)
    requires s != []
    ensures var i := LastMaxIndex(s, priority);
            (forall j :: 0 <= j < |s| ==> priority(s[j]) <= priority(s[i])) &&
            (forall j :: i < j < |s| ==> priority(s[j]) < priority(s[i]))
  {
    if |s| > 1 {
      var front := s[..|s| - 1];
      LastMaxIndexIsLastMax(front, priority);
      assert forall j :: 0 <= j < |front| ==> s[j] == front[j];
    }
  }

  /** The elements of an insertion are the sorted list's and the new one. */
  lemma {:induction false} InsertKeeps(sorted: seq<Plugin>, x: Plugin, priority: Plugin -> int)
    ensures |InsertByPriority(sorted, x, priority)| == |sorted| + 1
    ensures forall y :: y in InsertByPriority(sorted, x, priority) <==> y in sorted || y == x
  {
    if sorted != [] && priority(sorted[0]) <= priority(x) {
      InsertKeeps(sorted[1..], x, priority);
      assert sorted == [sorted[0]] + sorted[1..];
    }
  }

  /** An element whose priority is at least everyone's goes last. */
  lemma {:induction false} InsertHighest(sorted: seq<Plugin>, x: Plugin, priority: Plugin -> int)
    requires forall y :: y in sorted ==> priority(y) <= priority(x)
    ensures InsertByPriority(sorted, x, priority) == sorted + [x]
  {
    if sorted != [] {
      assert sorted[0] in sorted;
      assert forall y :: y in sorted[1..] ==> y in sorted;
      InsertHighest(sorted[1..], x, priority);
      assert sorted == [sorted[0]] + sorted[1..];
    }
  }

  /** An element of lower priority than the last one leaves the last one last. */
  lemma {:induction false} InsertBelowLast(sorted: seq<Plugin>, x: Plugin, priority: Plugin -> int)
    requires sorted != [] && priority(x) < priority(sorted[|sorted| - 1])
    ensures var r := InsertByPriority(sorted, x, priority);
            r != [] && r[|r| - 1] == sorted[|sorted| - 1]
  {
    if priority(sorted[0]) <= priority(x) {
      assert |sorted| > 1;
      InsertBelowLast(sorted[1..], x, priority);
      InsertKeeps(sorted[1..], x, priority);
    }
  }

  /** The sorted list holds the plugins of the list. */
  lemma {:induction false} SortKeeps(s: seq<Plugin>, priority: Plugin -> int)
    ensures |SortByPriority(s, priority)| == |s|
    ensures forall y :: y in SortByPriority(s, priority) <==> y in s
  {
    if s != [] {
      var front := s[..|s| - 1];
      SortKeeps(front, priority);
      InsertKeeps(SortByPriority(front, priority), s[|s| - 1], priority);
      assert s == front + [s[|s| - 1]];
    }
  }

  /**
   * The last plugin of the stable sort is the reference choice: the last of
   * the plugins with the highest priority.
   */
  lemma {:induction false} SortLastIsLastMax(s: seq<Plugin>, priority: Plugin -> int)
    requires s != []
    ensures var sorted := SortByPriority(s, priority);
            |sorted| == |s| && sorted[|sorted| - 1] == s[LastMaxIndex(s, priority)]
  {
    SortKeeps(s, priority);
    if |s| > 1 {
      var front, x := s[..|s| - 1], s[|s| - 1];
      var sorted := SortByPriority(front, priority);
      SortLastIsLastMax(front, priority);
      SortKeeps(front, priority);
      var i := LastMaxIndex(front, priority);
      if priority(x) >= priority(front[i]) {
        LastMaxIndexIsLastMax(front, priority);
        forall y | y in sorted
          ensures priority(y) <= priority(x)
        {
          var j :| 0 <= j < |front| && front[j] == y;
        }
        InsertHighest(sorted, x, priority);
      } else {
        InsertBelowLast(sorted, x, priority);
      }
    } else {
      assert s[..0] == [];
    }
  }

  // ---------------------------------------------------------------------------
  // The services
  // ---------------------------------------------------------------------------

  /** The message of the error `getPlugin` raises when no plugin matches. */
  function NoMatchMessage(serviceType: string, strategy: Option<string>): string {
    "No matching service for given annotatedElementInfo using type: " + serviceType
      + ", strategy: " + strategy.GetOr("null")
  }

  /** The plugin service of one class loader, with the plugins it has loaded per plugin type. */
  class AnnotationProcessorPluginService {
    const classLoader: ClassLoader
    /** The plugins loaded for each plugin type, in discovery order. */
    var loaders: map<string, seq<Plugin>>

    constructor (classLoader: ClassLoader)
      ensures this.classLoader == classLoader && loaders == map[]
    {
      this.classLoader := classLoader;
      loaders := map[];
    }

    /**
     * `findPlugins`: the plugins of `pluginType`, each once, in discovery
     * order. The service loader runs only the first time a type is asked
     * for; `discovered` is what it would find.
     */
    method FindPlugins(pluginType: string, discovered: seq<Plugin>) returns (r: seq<Plugin>)
      modifies this
      ensures pluginType in old(loaders) ==> loaders == old(loaders)
      ensures pluginType !in old(loaders) ==> loaders == old(loaders)[pluginType := discovered]
      ensures r == Deduplicated(loaders[pluginType])
    {
      if pluginType !in loaders {
        loaders := loaders[pluginType := discovered];
      }
      r := Deduplicated(loaders[pluginType]);
    }

    /**
     * `findPlugin`: the candidates sorted by the priority each reports for
     * the element and strategy, and the last of them: none exactly when there
     * is no candidate, otherwise the last candidate of highest priority.
     */
    method FindPlugin(serviceType: string, discovered: seq<Plugin>, priority: Plugin -> int)
      returns (r: Option<Plugin>)
      modifies this
      ensures serviceType in old(loaders) ==> loaders == old(loaders)
      ensures serviceType !in old(loaders) ==> loaders == old(loaders)[serviceType := discovered]
      ensures var candidates := Deduplicated(loaders[serviceType]);
              (r.None? <==> candidates == []) &&
              (r.Some? ==> candidates != [] && r.value == candidates[LastMaxIndex(candidates, priority)])
    {
      var candidates := FindPlugins(serviceType, discovered);
      var sorted := SortByPriority(candidates, priority);
      SortKeeps(candidates, priority);
      if sorted == [] {
        r := None;
      } else {
        SortLastIsLastMax(candidates, priority);
        r := Some(sorted[|sorted| - 1]);
      }
    }

    /** `getPlugin`: the plugin `findPlugin` chooses, or an error when there is none. */
    method GetPlugin(serviceType: string, strategy: Option<string>, discovered: seq<Plugin>, priority: Plugin -> int)
      returns (r: Result<Plugin>)
      modifies this
      ensures serviceType in old(loaders) ==> loaders == old(loaders)
      ensures serviceType !in old(loaders) ==> loaders == old(loaders)[serviceType := discovered]
      ensures var candidates := Deduplicated(loaders[serviceType]);
              (r.Err? <==> candidates == []) &&
              (r.Err? ==> r.error == IllegalState(NoMatchMessage(serviceType, strategy))) &&
              (r.Ok? ==> candidates != [] && r.value == candidates[LastMaxIndex(candidates, priority)])
    {
      var found := FindPlugin(serviceType, discovered, priority);
      if found.Some? {
        r := Ok(found.value);
      } else {
        r := Err(IllegalState(NoMatchMessage(serviceType, strategy)));
      }
    }
  }

  /** The companion's cache: one service per class loader identity hash. */
  class PluginServices {
    var serviceLoaders: map<int, AnnotationProcessorPluginService>

    constructor ()
      ensures serviceLoaders == map[]
    {
      serviceLoaders := map[];
    }

    /**
     * `getInstance`: the cached service of the loader's identity hash, or a
     * new service of the loader, cached under that hash.
     */
    method GetInstance(classLoader: ClassLoader, identityHash: int) returns (r: AnnotationProcessorPluginService)
      modifies this
      ensures identityHash in old(serviceLoaders) ==> r == old(serviceLoaders)[identityHash] && serviceLoaders == old(serviceLoaders)
      ensures identityHash !in old(serviceLoaders) ==>
                fresh(r) && r.classLoader == classLoader && r.loaders == map[] &&
                serviceLoaders == old(serviceLoaders)[identityHash := r]
    {
      if identityHash in serviceLoaders {
        r := serviceLoaders[identityHash];
      } else {
        r := new AnnotationProcessorPluginService(classLoader);
        serviceLoaders := serviceLoaders[identityHash := r];
      }
    }
  }
}
