/** The harvester plugin registry: fetcher and transformer classes keyed by lower-cased
    supplier code, registered by decorator or discovered from plugin directories, and looked
    up case-insensitively with a fallback import by module path. The filesystem and the
    import machinery are parameters: a directory is the list of its `*.py` files with what
    loading each one yields, and the fallback import is a function of module and class name. */
module Harvester {
  import opened Common

  /** A plugin class, identified by the module that defines it and its name. */
  datatype ClassRef = ClassRef(home: string, name: string)

  /** A registry dictionary: its keys in insertion order and the classes. */
  datatype Table = Table(keys: seq<string>, classes: map<string, ClassRef>)

  ghost predicate WellFormed(t: Table) {
    && (forall i, j :: 0 <= i < j < |t.keys| ==> t.keys[i] != t.keys[j])
    && (forall k :: k in t.keys <==> k in t.classes)
  }

  /** `d[key] = cls` on an insertion-ordered dictionary: a new key goes last, an existing
      key keeps its place and gets the new class. */
  function Put(t: Table, key: string, cls: ClassRef): Table {
    if key in t.classes then Table(t.keys, t.classes[key := cls])
    else Table(t.keys + [key], t.classes[key := cls])
  }

  /** The key now maps to the class, every other entry is untouched, the key order only
      grows at the end, and the dictionary stays well formed. */
  lemma PutSpec(t: Table, key: string, cls: ClassRef)
    requires WellFormed(t)
    ensures var r := Put(t, key, cls);
            WellFormed(r) && key in r.classes && r.classes[key] == cls &&
            (forall k :: k != key ==> (k in r.classes <==> k in t.classes)) &&
            (forall k :: k != key && k in t.classes ==> r.classes[k] == t.classes[k]) &&
            r.keys == (if key in t.classes then t.keys else t.keys + [key])
  {
  }

  /** Several puts in order. */
  function PutAll(t: Table, found: seq<(string, ClassRef)>): Table
    decreases |found|
  {
    if found == [] then t
    else
      var n := |found| - 1;
      Put(PutAll(t, found[..n]), found[n].0, found[n].1)
  }

  lemma {:induction false} PutAllWellFormed(t: Table, found: seq<(string, ClassRef)>)
    requires WellFormed(t)
    ensures WellFormed(PutAll(t, found))
    decreases |found|
  {
    if found != [] {
      var n := |found| - 1;
      PutAllWellFormed(t, found[..n]);
      PutSpec(PutAll(t, found[..n]), found[n].0, found[n].1);
    }
  }

  /** After a series of puts every put key is present, and a key that was never put keeps
      its old entry. */
  lemma {:induction false} PutAllSpec(t: Table, found: seq<(string, ClassRef)>)
    requires WellFormed(t)
    ensures var r := PutAll(t, found);
            WellFormed(r) &&
            (forall p :: p in found ==> p.0 in r.classes) &&
            (forall k :: k in t.classes ==> k in r.classes) &&
            (forall k :: (forall p :: p in found ==> p.0 != k) ==>
                           (k in r.classes <==> k in t.classes) &&
                           (k in t.classes ==> r.classes[k] == t.classes[k]))
    decreases |found|
  {
    if found != [] {
      var n := |found| - 1;
      PutAllSpec(t, found[..n]);
      PutSpec(PutAll(t, found[..n]), found[n].0, found[n].1);
      assert forall p :: p in found ==> p in found[..n] || p == found[n];
    }
  }

  // ---------------------------------------------------------------- class names

  /** `part.capitalize()`: the first character upper case, the rest lower case. */
  function Capitalize(part: string): (r: string)
    ensures |r| == |part|
    ensures r != [] ==> !IsLower(r[0])
    ensures forall i :: 1 <= i < |r| ==> !IsUpper(r[i])
  {
    if part == [] then [] else [UpperChar(part[0])] + Lower(part[1..])
  }

  /** Capitalising only changes case. */
  lemma CapitalizeLower(part: string)
    ensures Lower(Capitalize(part)) == Lower(part)
  {
    if part != [] {
      LowerAppend([UpperChar(part[0])], Lower(part[1..]));
      LowerIdempotent(part[1..]);
      LowerUpperChar(part[0]);
      LowerAppend([part[0]], part[1..]);
      assert part == [part[0]] + part[1..];
    }
  }

  /** The capitalised parts, concatenated. */
  function CapitalizeAll(parts: seq<string>): string
    decreases |parts|
  {
    if parts == [] then "" else Capitalize(parts[0]) + CapitalizeAll(parts[1..])
  }

  /** `_code_to_classname`. */
  function CodeToClassname(code: string, suffix: string): string {
    CapitalizeAll(Split(code, '_')) + suffix
  }

  /** The concatenated parts, without separators. */
  function Concat(parts: seq<string>): string
    decreases |parts|
  {
    if parts == [] then "" else parts[0] + Concat(parts[1..])
  }

  lemma {:induction false} CapitalizeAllLower(parts: seq<string>)
    ensures Lower(CapitalizeAll(parts)) == Lower(Concat(parts))
    decreases |parts|
  {
    if parts != [] {
      CapitalizeAllLower(parts[1..]);
      CapitalizeLower(parts[0]);
      LowerAppend(Capitalize(parts[0]), CapitalizeAll(parts[1..]));
      LowerAppend(parts[0], Concat(parts[1..]));
    }
  }

  /** The class name is the code with its underscores dropped and each part capitalised,
      followed by the suffix: it ends with the suffix, and apart from case its stem is the
      code's parts run together. */
  lemma CodeToClassnameSpec(code: string, suffix: string)
    ensures EndsWith(CodeToClassname(code, suffix), suffix)
    ensures var name := CodeToClassname(code, suffix);
            Lower(name[..|name| - |suffix|]) == Lower(Concat(Split(code, '_')))
  {
    var name := CodeToClassname(code, suffix);
    var stem := CapitalizeAll(Split(code, '_'));
    assert name[..|name| - |suffix|] == stem;
    assert name[|name| - |suffix|..] == suffix;
    CapitalizeAllLower(Split(code, '_'));
  }

  /** A code with one underscore splits into the two parts around it. */
  lemma SplitTwo(a: string, b: string, sep: char)
    requires sep !in a && sep !in b
    ensures Split(a + [sep] + b, sep) == [a, b]
  {
    var s := a + [sep] + b;
    assert s[|a|] == sep;
    assert IndexOf(s, sep) == |a|;
    assert s[..|a|] == a && s[|a| + 1..] == b;
  }

  /** A two-part code names the class made of both parts, capitalised, and the suffix. */
  lemma TwoPartClassname(a: string, b: string, suffix: string)
    requires '_' !in a && '_' !in b
    ensures CodeToClassname(a + "_" + b, suffix) == Capitalize(a) + Capitalize(b) + suffix
  {
    SplitTwo(a, b, '_');
    var parts := [a, b];
    assert parts[1..] == [b] && parts[1..][1..] == [];
    assert CapitalizeAll(parts[1..][1..]) == "";
    assert CapitalizeAll(parts[1..]) == Capitalize(b) + "";
    assert CapitalizeAll(parts) == Capitalize(a) + CapitalizeAll(parts[1..]);
    assert a + "_" + b == a + ['_'] + b;
  }

  lemma CapitalizeWord(w: string, rest: string, first: char)
    requires w != [] && UpperChar(w[0]) == first && w[1..] == rest
    requires forall i :: 0 <= i < |rest| ==> IsLower(rest[i])
    ensures Capitalize(w) == [first] + rest
  {
    assert Lower(rest) == rest;
  }

  /** `CapitalizeWord` on the first word, apart from the main proof to keep it small. */
  lemma CapitalizeNova(nova: string)
    requires nova == "nova"
    ensures Capitalize(nova) == "Nova"
  {
    CapitalizeWord(nova, "ova", 'N');
  }

  /** `CapitalizeWord` on the second word. */
  lemma CapitalizePoshta(poshta: string)
    requires poshta == "poshta"
    ensures Capitalize(poshta) == "Poshta"
  {
    CapitalizeWord(poshta, "oshta", 'P');
  }

  /** The supplier code `nova_poshta` names the class `NovaPoshtaFetcher`. The words are
      parameters so that the solver does not unfold the conversion on the literals. */
  lemma NovaPoshtaFetcher(nova: string, poshta: string, suffix: string)
    requires nova == "nova" && poshta == "poshta" && suffix == "Fetcher"
    ensures CodeToClassname(nova + "_" + poshta, suffix) == "NovaPoshtaFetcher"
  {
    TwoPartClassname(nova, poshta, suffix);
    CapitalizeNova(nova);
    CapitalizePoshta(poshta);
    assert "Nova" + "Poshta" + "Fetcher" == "NovaPoshtaFetcher";
  }

  // ---------------------------------------------------------------- discovery

  /** An attribute of a loaded plugin module, in `dir()` order: its name, whether it is a
      class, and what it holds. */
  datatype Attr = Attr(name: string, isClass: bool, value: ClassRef)

  /** What loading a plugin file yields: no loader for it, an exception while importing, or
      the module's attributes. */
  datatype Load = NoLoader | Failed | Loaded(attrs: seq<Attr>)

  /** A `*.py` file of a plugin directory, by its stem. */
  datatype PluginFile = PluginFile(stem: string, load: Load)

  /** The first attribute satisfying the `dir()` fallback: a public class named with the suffix. */
  function FirstSuffixed(attrs: seq<Attr>, suffix: string): (r: Option<ClassRef>)
    ensures r.Some? <==> exists a :: a in attrs && EndsWith(a.name, suffix) && !StartsWith(a.name, "_") && a.isClass
    ensures r.Some? ==> exists a :: a in attrs && a.value == r.value
    decreases |attrs|
  {
    if attrs == [] then None
    else if EndsWith(attrs[0].name, suffix) && !StartsWith(attrs[0].name, "_") && attrs[0].isClass then Some(attrs[0].value)
    else FirstSuffixed(attrs[1..], suffix)
  }

  /** `getattr(module, name)` when the attribute exists. */
  function Attribute(attrs: seq<Attr>, name: string): (r: Option<ClassRef>)
    ensures r.Some? <==> exists a :: a in attrs && a.name == name
    ensures r.Some? ==> exists a :: a in attrs && a.name == name && a.value == r.value
    decreases |attrs|
  {
    if attrs == [] then None
    else if attrs[0].name == name then Some(attrs[0].value)
    else Attribute(attrs[1..], name)
  }

  /** The class one file contributes, if any: private files are skipped; the class named
      after the code is taken whatever it is, and otherwise the first public class with the
      suffix; a file that fails to load contributes nothing. */
  function FileClass(f: PluginFile, suffix: string): Option<ClassRef> {
    if StartsWith(f.stem + ".py", "_") then None
    else match f.load
      case Loaded(attrs) =>
        var expected := Attribute(attrs, CodeToClassname(f.stem, suffix));
        if expected.Some? then expected else FirstSuffixed(attrs, suffix)
      case _ => None
  }

  /** The registrations `_discover_from_dir` performs, in file order: each under the
      lower-cased stem. */
  function Found(files: seq<PluginFile>, suffix: string): seq<(string, ClassRef)>
    decreases |files|
  {
    if files == [] then []
    else
      var n := |files| - 1;
      var f := files[n];
      Found(files[..n], suffix) + (match FileClass(f, suffix) case Some(c) => [(Lower(f.stem), c)] case None => [])
  }

  /** Each registration comes from one file that yields that class, under the file's
      lower-cased stem; so there are at most as many as files. */
  lemma {:induction false} FoundSpec(files: seq<PluginFile>, suffix: string)
    ensures |Found(files, suffix)| <= |files|
    ensures forall p :: p in Found(files, suffix) ==>
              exists f :: f in files && p.0 == Lower(f.stem) && FileClass(f, suffix) == Some(p.1)
    decreases |files|
  {
    if files != [] {
      var n := |files| - 1;
      FoundSpec(files[..n], suffix);
      assert forall x :: x in files[..n] ==> x in files;
    }
  }

  /** A private file never registers anything. */
  lemma PrivateFilesSkipped(f: PluginFile, suffix: string)
    requires StartsWith(f.stem, "_")
    ensures FileClass(f, suffix).None?
  {
    assert (f.stem + ".py")[..1] == f.stem[..1];
  }

  /** A loaded file whose module defines the expected class registers exactly that class. */
  lemma ExpectedClassWins(f: PluginFile, suffix: string, a: Attr)
    requires !StartsWith(f.stem, "_") && f.stem != []
    requires f.load.Loaded? && f.load.attrs == [a] && a.name == CodeToClassname(f.stem, suffix)
    ensures FileClass(f, suffix) == Some(a.value)
    ensures Found([f], suffix) == [(Lower(f.stem), a.value)]
  {
    assert (f.stem + ".py")[..1] == f.stem[..1];
    assert [f][..0] == [];
  }

  /** A plugin directory as discovery sees it: its resolved path, whether it exists, and the
      files of its `fetchers/` and `transformers/` subdirectories (`None` when absent). */
  datatype PluginDir = PluginDir(
    resolved: string,
    present: bool,
    fetchers: Option<seq<PluginFile>>,
    transformers: Option<seq<PluginFile>>)

  /** The registry's whole state. */
  datatype State = State(fetchers: Table, transformers: Table, discoveredPaths: set<string>)

  function FoundIn(files: Option<seq<PluginFile>>, suffix: string): seq<(string, ClassRef)> {
    match files
    case None => []
    case Some(fs) => Found(fs, suffix)
  }

  /** `discover_plugins`: the new state and the number of classes registered. */
  function Discover(s: State, dir: PluginDir): (State, nat) {
    if dir.resolved in s.discoveredPaths || !dir.present then (s, 0)
    else
      var fs := FoundIn(dir.fetchers, "Fetcher");
      var ts := FoundIn(dir.transformers, "Transformer");
      (State(PutAll(s.fetchers, fs), PutAll(s.transformers, ts), s.discoveredPaths + {dir.resolved}),
       |fs| + |ts|)
  }

  /** An already discovered path returns 0 and changes nothing. */
  lemma AlreadyDiscovered(s: State, dir: PluginDir)
    requires dir.resolved in s.discoveredPaths
    ensures Discover(s, dir) == (s, 0)
  {
  }

  /** A missing directory returns 0 and is not recorded, so a later call tries it again. */
  lemma MissingDirNotRecorded(s: State, dir: PluginDir, later: PluginDir)
    requires dir.resolved !in s.discoveredPaths && !dir.present
    requires later.resolved == dir.resolved && later.present
    ensures Discover(s, dir) == (s, 0)
    ensures dir.resolved in Discover(Discover(s, dir).0, later).0.discoveredPaths
  {
  }

  /** Discovery records the path and returns the number of classes it registered; every
      registered key is then present, and the fetchers land only among the fetchers.
      Discovering the same directory again returns 0 and changes nothing. */
  lemma DiscoverSpec(s: State, dir: PluginDir)
    requires WellFormed(s.fetchers) && WellFormed(s.transformers)
    requires dir.resolved !in s.discoveredPaths && dir.present
    ensures var (s2, n) := Discover(s, dir);
            var fs := FoundIn(dir.fetchers, "Fetcher");
            var ts := FoundIn(dir.transformers, "Transformer");
            s2.discoveredPaths == s.discoveredPaths + {dir.resolved} &&
            n == |fs| + |ts| &&
            WellFormed(s2.fetchers) && WellFormed(s2.transformers) &&
            (forall p :: p in fs ==> p.0 in s2.fetchers.classes) &&
            (forall p :: p in ts ==> p.0 in s2.transformers.classes)
    ensures var s2 := Discover(s, dir).0;
            Discover(s2, dir) == (s2, 0)
  {
    var fs := FoundIn(dir.fetchers, "Fetcher");
    var ts := FoundIn(dir.transformers, "Transformer");
    PutAllSpec(s.fetchers, fs);
    PutAllSpec(s.transformers, ts);
  }

  // ---------------------------------------------------------------- the registry

  /** The fallback import: the class found as `class_name` in module `module_name`, or
      `None` for an ImportError or AttributeError. */
  type LegacyImport = (string, string) -> Option<ClassRef>

  /** `HarvesterRegistry`. A lookup's result stands for an instance of the class found. */
  class HarvesterRegistry {
    var fetchers: Table
    var transformers: Table
    var discoveredPaths: set<string>

    ghost predicate Valid() reads this {
      WellFormed(fetchers) && WellFormed(transformers)
    }

    function Snapshot(): State reads this {
      State(fetchers, transformers, discoveredPaths)
    }

    constructor ()
      ensures Valid() && fetchers == Table([], map[]) && transformers == Table([], map[])
      ensures discoveredPaths == {}
    {
      fetchers, transformers, discoveredPaths := Table([], map[]), Table([], map[]), {};
    }

    /** The `register_fetcher(code)` decorator applied to `cls`: stored under the lower-cased
        code, overwriting, and the class is returned unchanged. */
    method RegisterFetcher(code: string, cls: ClassRef) returns (r: ClassRef)
      requires Valid()
      modifies this
      ensures Valid() && r == cls
      ensures fetchers == Put(old(fetchers), Lower(code), cls)
      ensures transformers == old(transformers) && discoveredPaths == old(discoveredPaths)
    {
      PutSpec(fetchers, Lower(code), cls);
      fetchers := Put(fetchers, Lower(code), cls);
      r := cls;
    }

    /** The `register_transformer(code)` decorator. */
    method RegisterTransformer(code: string, cls: ClassRef) returns (r: ClassRef)
      requires Valid()
      modifies this
      ensures Valid() && r == cls
      ensures transformers == Put(old(transformers), Lower(code), cls)
      ensures fetchers == old(fetchers) && discoveredPaths == old(discoveredPaths)
    {
      PutSpec(transformers, Lower(code), cls);
      transformers := Put(transformers, Lower(code), cls);
      r := cls;
    }

    /** `_discover_from_dir` into the fetchers or the transformers. */
    method DiscoverFromDir(files: seq<PluginFile>, suffix: string, intoFetchers: bool) returns (n: nat)
      modifies this
      ensures n == |Found(files, suffix)|
      ensures intoFetchers ==> fetchers == PutAll(old(fetchers), Found(files, suffix)) && transformers == old(transformers)
      ensures !intoFetchers ==> transformers == PutAll(old(transformers), Found(files, suffix)) && fetchers == old(fetchers)
      ensures discoveredPaths == old(discoveredPaths)
    {
      var t := if intoFetchers then fetchers else transformers;
      ghost var t0 := t;
      n := 0;
      var i := 0;
      while i < |files|
        invariant 0 <= i <= |files|
        invariant t == PutAll(t0, Found(files[..i], suffix))
        invariant n == |Found(files[..i], suffix)|
      {
        var f := files[i];
        assert files[..i + 1][..i] == files[..i] && files[..i + 1][i] == f;
        var c := FileClass(f, suffix);
        if c.Some? {
          assert Found(files[..i + 1], suffix) == Found(files[..i], suffix) + [(Lower(f.stem), c.value)];
          t := Put(t, Lower(f.stem), c.value);
          n := n + 1;
        } else {
          assert Found(files[..i + 1], suffix) == Found(files[..i], suffix);
        }
        i := i + 1;
      }
      assert files[..i] == files;
      if intoFetchers {
        fetchers := t;
      } else {
        transformers := t;
      }
    }

    /** `discover_plugins`. */
    method DiscoverPlugins(dir: PluginDir) returns (n: nat)
      requires Valid()
      modifies this
      ensures Valid()
      ensures Snapshot() == Discover(old(Snapshot()), dir).0
      ensures n == Discover(old(Snapshot()), dir).1
    {
      if dir.resolved in discoveredPaths {
        return 0;
      }
      if !dir.present {
        return 0;
      }
      ghost var fs := FoundIn(dir.fetchers, "Fetcher");
      ghost var ts := FoundIn(dir.transformers, "Transformer");
      PutAllWellFormed(fetchers, fs);
      PutAllWellFormed(transformers, ts);
      n := 0;
      if dir.fetchers.Some? {
        var k := DiscoverFromDir(dir.fetchers.value, "Fetcher", true);
        n := n + k;
      }
      if dir.transformers.Some? {
        var k := DiscoverFromDir(dir.transformers.value, "Transformer", false);
        n := n + k;
      }
      discoveredPaths := discoveredPaths + {dir.resolved};
    }

    /** `get_fetcher`: a registered class under the lower-cased code, else the fallback
        import of `fetchers.<code>` with the code as given. */
    function GetFetcher(code: string, legacy: LegacyImport): (r: Option<ClassRef>)
      reads this
      ensures Lower(code) in fetchers.classes ==> r == Some(fetchers.classes[Lower(code)])
      ensures Lower(code) !in fetchers.classes ==>
                r == legacy("fetchers." + code, CodeToClassname(code, "Fetcher"))
    {
      if Lower(code) in fetchers.classes then Some(fetchers.classes[Lower(code)])
      else legacy("fetchers." + code, CodeToClassname(code, "Fetcher"))
    }

    /** `get_transformer`. */
    function GetTransformer(code: string, legacy: LegacyImport): (r: Option<ClassRef>)
      reads this
      ensures Lower(code) in transformers.classes ==> r == Some(transformers.classes[Lower(code)])
      ensures Lower(code) !in transformers.classes ==>
                r == legacy("transformers." + code, CodeToClassname(code, "Transformer"))
    {
      if Lower(code) in transformers.classes then Some(transformers.classes[Lower(code)])
      else legacy("transformers." + code, CodeToClassname(code, "Transformer"))
    }

    /** `list_fetchers`: the registered codes, each once, in insertion order. */
    function ListFetchers(): (ks: seq<string>)
      reads this
      requires Valid()
      ensures forall k :: k in ks <==> k in fetchers.classes
      ensures forall i, j :: 0 <= i < j < |ks| ==> ks[i] != ks[j]
    {
      fetchers.keys
    }

    /** `list_transformers`. */
    function ListTransformers(): (ks: seq<string>)
      reads this
      requires Valid()
      ensures forall k :: k in ks <==> k in transformers.classes
      ensures forall i, j :: 0 <= i < j < |ks| ==> ks[i] != ks[j]
    {
      transformers.keys
    }
  }

  /** Registration and lookup ignore case: whatever the case of either code, a registered
      class is what the lookup returns, and the fallback import is not consulted. */
  lemma RegisteredLookupIgnoresCase(t: Table, code: string, other: string, cls: ClassRef)
    requires Lower(code) == Lower(other)
    ensures var r := Put(t, Lower(code), cls);
            Lower(other) in r.classes && r.classes[Lower(other)] == cls
  {
  }

  /** A later registration under the same code, in any case, replaces the earlier class
      without moving the code in the listing. */
  lemma LaterRegistrationOverwrites(t: Table, code: string, other: string, c1: ClassRef, c2: ClassRef)
    requires WellFormed(t) && Lower(code) == Lower(other)
    ensures var r := Put(Put(t, Lower(code), c1), Lower(other), c2);
            r.classes[Lower(code)] == c2 && r.keys == Put(t, Lower(code), c1).keys
  {
  }
}
