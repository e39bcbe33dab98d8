/**
 * The chunks that get a Brotli copy: what an entry, or a module it imports dynamically, pulls in
 * by static imports. The import graph may have cycles and may name chunks that do not exist.
 */
module BootChunkClosure {
  datatype Output =
    | Asset(fileName: string)
    | Chunk(fileName: string, imports: seq<string>, dynamicImports: seq<string>, isEntry: bool)

  type Chunks = m: map<string, Output> | forall f <- m :: m[f].Chunk? && m[f].fileName == f witness map[]

  /** The chunks of a bundle by file name; the last of equal names is kept. */
  function ChunksOf(bundle: seq<Output>): Chunks {
    if bundle == [] then map[]
    else
      var last := bundle[|bundle| - 1];
      var before := ChunksOf(bundle[..|bundle| - 1]);
      if last.Chunk? then before[last.fileName := last] else before
  }

  /** This output is a chunk, and no later chunk of the bundle has its name. */
  predicate Survives(bundle: seq<Output>, i: int) {
    && 0 <= i < |bundle| && bundle[i].Chunk?
    && forall j :: i < j < |bundle| && bundle[j].Chunk? ==> bundle[j].fileName != bundle[i].fileName
  }

  /** The map holds exactly the surviving chunks of the bundle, under their names. */
  ghost predicate IsMapOf(bundle: seq<Output>, chunks: Chunks) {
    && (forall i :: Survives(bundle, i) ==> bundle[i].fileName in chunks && chunks[bundle[i].fileName] == bundle[i])
    && (forall f <- chunks :: exists i :: Survives(bundle, i) && bundle[i] == chunks[f])
  }

  lemma {:induction false} ChunksOfBundle(bundle: seq<Output>)
    ensures IsMapOf(bundle, ChunksOf(bundle))
  {
    if bundle != [] {
      var n := |bundle| - 1;
      var before, last := bundle[..n], bundle[n];
      ChunksOfBundle(before);
      assert forall i :: 0 <= i < n ==> bundle[i] == before[i];
      var chunks := ChunksOf(bundle);
      forall i | Survives(bundle, i)
        ensures bundle[i].fileName in chunks && chunks[bundle[i].fileName] == bundle[i]
      {
        assert i < n ==> Survives(before, i);
      }
      forall f | f in chunks ensures exists i :: Survives(bundle, i) && bundle[i] == chunks[f] {
        if last.Chunk? && f == last.fileName {
          assert Survives(bundle, n);
        } else {
          var i :| Survives(before, i) && before[i] == ChunksOf(before)[f];
          assert Survives(bundle, i);
        }
      }
    }
  }

  // ---------------------------------------------------------------- reachability

  /** A walk along static imports that stays on existing chunks. */
  ghost predicate StaticPath(chunks: Chunks, p: seq<string>) {
    && p != []
    && (forall i :: 0 <= i < |p| ==> p[i] in chunks)
    && (forall i :: 0 <= i < |p| - 1 ==> p[i + 1] in chunks[p[i]].imports)
  }

  predicate NamesRoot(chunk: Output, f: string)
    requires chunk.Chunk?
  {
    chunk.isEntry && (f == chunk.fileName || f in chunk.dynamicImports)
  }

  ghost predicate IsRoot(chunks: Chunks, f: string) {
    exists e <- chunks :: NamesRoot(chunks[e], f)
  }

  ghost predicate BootPath(chunks: Chunks, p: seq<string>, f: string) {
    StaticPath(chunks, p) && IsRoot(chunks, p[0]) && p[|p| - 1] == f
  }

  ghost predicate Boots(chunks: Chunks, f: string) {
    exists p :: BootPath(chunks, p, f)
  }

  lemma RootBoots(chunks: Chunks, f: string)
    requires f in chunks && IsRoot(chunks, f)
    ensures Boots(chunks, f)
  {
    assert BootPath(chunks, [f], f);
  }

  lemma ImportBoots(chunks: Chunks, f: string, imported: string)
    requires Boots(chunks, f) && f in chunks && imported in chunks[f].imports && imported in chunks
    ensures Boots(chunks, imported)
  {
    var p :| BootPath(chunks, p, f);
    assert BootPath(chunks, p + [imported], imported);
  }

  /** The existing static imports of a chunk are all in the set. */
  ghost predicate Closed(chunks: Chunks, closure: set<string>, f: string)
    requires f in chunks
  {
    forall g <- chunks[f].imports :: g in chunks ==> g in closure
  }

  /** A walk cannot leave a set that is closed under static imports. */
  lemma {:induction false} PathStaysInside(chunks: Chunks, closure: set<string>, p: seq<string>)
    requires closure <= chunks.Keys && (forall f <- closure :: Closed(chunks, closure, f))
    requires StaticPath(chunks, p) && p[0] in closure
    ensures p[|p| - 1] in closure
    decreases |p|
  {
    if |p| > 1 {
      assert Closed(chunks, closure, p[0]);
      assert p[0 + 1] in chunks[p[0]].imports;
      forall i | 0 <= i < |p[1..]| - 1 ensures p[1..][i + 1] in chunks[p[1..][i]].imports {
        assert p[i + 1 + 1] in chunks[p[i + 1]].imports;
      }
      PathStaysInside(chunks, closure, p[1..]);
    }
  }

  // ---------------------------------------------------------------- the search

  class BootChunks {
    const chunks: Chunks
    var closure: set<string>

    constructor (bundle: seq<Output>)
      ensures IsMapOf(bundle, chunks) && closure == {}
    {
      chunks, closure := ChunksOf(bundle), {};
      ChunksOfBundle(bundle);
    }

    /** Adds a chunk and, depth first, everything it imports that is not there yet. */
    method AddStatic(fileName: string)
      requires closure <= chunks.Keys
      requires fileName in chunks ==> Boots(chunks, fileName)
      modifies this`closure
      ensures old(closure) <= closure <= chunks.Keys
      ensures fileName in chunks ==> fileName in closure
      ensures forall f <- closure - old(closure) :: Boots(chunks, f) && Closed(chunks, closure, f)
      decreases chunks.Keys - closure
    {
      if fileName in closure || fileName !in chunks {
        return;
      }
      closure := closure + {fileName};
      var imports := chunks[fileName].imports;
      for i := 0 to |imports|
        invariant old(closure) + {fileName} <= closure <= chunks.Keys
        invariant forall g <- imports[..i] :: g in chunks ==> g in closure
        invariant forall f <- closure - old(closure) ::
          Boots(chunks, f) && (f != fileName ==> Closed(chunks, closure, f))
      {
        if imports[i] in chunks {
          ImportBoots(chunks, fileName, imports[i]);
        }
        AddStatic(imports[i]);
      }
      assert imports[..|imports|] == imports;
    }

    /** What is in the closure between two roots: boot chunks, closed under static imports. */
    ghost predicate Settled()
      reads this
    {
      closure <= chunks.Keys && forall f <- closure :: Boots(chunks, f) && Closed(chunks, closure, f)
    }

    method AddRoot(fileName: string)
      requires Settled() && (fileName in chunks ==> Boots(chunks, fileName))
      modifies this`closure
      ensures Settled() && old(closure) <= closure && (fileName in chunks ==> fileName in closure)
    {
      AddStatic(fileName);
    }

    /** The modules an entry imports dynamically, one after the other. */
    method AddLazy(entry: string)
      requires entry in chunks && chunks[entry].isEntry && Settled()
      modifies this`closure
      ensures Settled() && old(closure) <= closure
      ensures forall g <- chunks[entry].dynamicImports :: g in chunks ==> g in closure
    {
      var lazy := chunks[entry].dynamicImports;
      for i := 0 to |lazy|
        invariant Settled() && old(closure) <= closure
        invariant forall k :: 0 <= k < i && lazy[k] in chunks ==> lazy[k] in closure
      {
        LazyBoots(entry, lazy[i]);
        AddRoot(lazy[i]);
      }
    }

    /** One entry: the entry itself, then each module it imports dynamically. */
    method AddRoots(entry: string)
      requires entry in chunks && chunks[entry].isEntry && Settled()
      modifies this`closure
      ensures Settled() && old(closure) <= closure
      ensures forall f <- chunks :: NamesRoot(chunks[entry], f) ==> f in closure
    {
      assert NamesRoot(chunks[entry], entry);
      RootBoots(chunks, entry);
      AddRoot(entry);
      AddLazy(entry);
    }

    lemma LazyBoots(entry: string, lazy: string)
      requires entry in chunks && chunks[entry].isEntry && lazy in chunks[entry].dynamicImports
      ensures lazy in chunks ==> Boots(chunks, lazy)
    {
      assert NamesRoot(chunks[entry], lazy);
      if lazy in chunks { RootBoots(chunks, lazy); }
    }

    lemma EveryPathIsInside()
      requires closure <= chunks.Keys && forall f <- closure :: Closed(chunks, closure, f)
      requires forall e <- chunks, f <- chunks :: NamesRoot(chunks[e], f) ==> f in closure
      ensures forall f :: Boots(chunks, f) ==> f in closure
    {
      forall f | Boots(chunks, f) ensures f in closure {
        var p :| BootPath(chunks, p, f);
        var e :| e in chunks && NamesRoot(chunks[e], p[0]);
        PathStaysInside(chunks, closure, p);
      }
    }

    /** The closure is exactly what an entry or one of its dynamic imports reaches, in any order of chunks. */
    method GenerateBundle()
      modifies this`closure
      ensures forall f :: f in closure <==> Boots(chunks, f)
    {
      closure := {};
      var todo := chunks.Keys;
      while todo != {}
        invariant todo <= chunks.Keys && Settled()
        invariant forall e <- chunks.Keys - todo, f <- chunks :: NamesRoot(chunks[e], f) ==> f in closure
        decreases todo
      {
        var e :| e in todo;
        todo := todo - {e};
        if chunks[e].isEntry {
          AddRoots(e);
        }
      }
      EveryPathIsInside();
    }
  }

  // ---------------------------------------------------------------- from the bundle to the closure

  /** The bundle has a surviving chunk of the second name that a surviving chunk of the first one imports. */
  ghost predicate Imports(bundle: seq<Output>, f: string, g: string) {
    && (exists i :: Survives(bundle, i) && bundle[i].fileName == f && g in bundle[i].imports)
    && (exists j :: Survives(bundle, j) && bundle[j].fileName == g)
  }

  /** The bundle has a surviving chunk of this name that an entry is, or imports dynamically. */
  ghost predicate RootOf(bundle: seq<Output>, f: string) {
    && (exists i :: Survives(bundle, i) && bundle[i].fileName == f)
    && (exists e :: Survives(bundle, e) && bundle[e].isEntry
          && (f == bundle[e].fileName || f in bundle[e].dynamicImports))
  }

  /** A walk through the bundle from a root along static imports. */
  ghost predicate BundlePath(bundle: seq<Output>, p: seq<string>, f: string) {
    && p != [] && RootOf(bundle, p[0]) && p[|p| - 1] == f
    && forall i :: 0 <= i < |p| - 1 ==> Imports(bundle, p[i], p[i + 1])
  }

  lemma SurvivorOf(bundle: seq<Output>, chunks: Chunks, f: string)
    requires IsMapOf(bundle, chunks)
    ensures f in chunks <==> exists i :: Survives(bundle, i) && bundle[i].fileName == f
    ensures forall i :: Survives(bundle, i) && bundle[i].fileName == f ==> f in chunks && chunks[f] == bundle[i]
  {
  }

  lemma ImportsInMap(bundle: seq<Output>, chunks: Chunks, f: string, g: string)
    requires IsMapOf(bundle, chunks)
    ensures Imports(bundle, f, g) <==> f in chunks && g in chunks && g in chunks[f].imports
  {
    SurvivorOf(bundle, chunks, f);
    SurvivorOf(bundle, chunks, g);
  }

  lemma RootInMap(bundle: seq<Output>, chunks: Chunks, f: string)
    requires IsMapOf(bundle, chunks)
    ensures RootOf(bundle, f) <==> f in chunks && IsRoot(chunks, f)
  {
    SurvivorOf(bundle, chunks, f);
    if f in chunks && IsRoot(chunks, f) {
      var e :| e in chunks && NamesRoot(chunks[e], f);
      SurvivorOf(bundle, chunks, e);
    }
  }

  lemma PathInMap(bundle: seq<Output>, chunks: Chunks, p: seq<string>, f: string)
    requires IsMapOf(bundle, chunks)
    ensures BundlePath(bundle, p, f) <==> BootPath(chunks, p, f)
  {
    if p != [] { RootInMap(bundle, chunks, p[0]); }
    forall i | 0 <= i < |p| - 1
      ensures Imports(bundle, p[i], p[i + 1]) <==>
        p[i] in chunks && p[i + 1] in chunks && p[i + 1] in chunks[p[i]].imports
    {
      ImportsInMap(bundle, chunks, p[i], p[i + 1]);
    }
    if BundlePath(bundle, p, f) {
      forall i | 0 <= i < |p| ensures p[i] in chunks {
        if i > 0 { assert Imports(bundle, p[i - 1], p[i - 1 + 1]); }
      }
    }
  }

  /** The whole hook: the names reached in the bundle, and no others, get their copy. */
  method BootChunkFiles(bundle: seq<Output>) returns (files: set<string>)
    ensures forall f :: f in files <==> exists p :: BundlePath(bundle, p, f)
  {
    var boot := new BootChunks(bundle);
    boot.GenerateBundle();
    files := boot.closure;
    forall f ensures f in files <==> exists p :: BundlePath(bundle, p, f) {
      forall p ensures BundlePath(bundle, p, f) <==> BootPath(boot.chunks, p, f) {
        PathInMap(bundle, boot.chunks, p, f);
      }
      if Boots(boot.chunks, f) {
        var p :| BootPath(boot.chunks, p, f);
        assert BundlePath(bundle, p, f);
      }
    }
  }
}
