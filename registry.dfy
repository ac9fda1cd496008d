/**
 * The config registry that `EnvironmentCase.setUpClass` builds from the
 * environment's sysconfdir (tsqa/test_cases.py:45-51): every regular file in
 * the directory listing gets an entry, keyed by its file name, whose parser is
 * chosen by a per-name override table with a generic default.
 */
module ConfigRegistry {

  /** The parser a configuration file is read with. */
  datatype ParserKind = RecordsConfigParser | GenericConfigParser

  /** One name of the directory listing, with whether `os.path.isfile` holds of its path. */
  datatype Entry = Entry(name: string, isFile: bool)

  const RecordsConfigName: string := "records.config"

  /** File names whose parser differs from the generic one. */
  const ParserOverrides: map<string, ParserKind> := map[RecordsConfigName := RecordsConfigParser]

  /** The parser for a file name: its override if there is one, else the generic parser. */
  function KindFor(name: string): (k: ParserKind)
    ensures k == RecordsConfigParser <==> name == RecordsConfigName
    ensures k == GenericConfigParser <==> name != RecordsConfigName
  {
    if name in ParserOverrides then ParserOverrides[name] else GenericConfigParser
  }

  /** The names of the listing whose entry is a regular file. */
  ghost function FileNames(listing: seq<Entry>): set<string>
  {
    set e | e in listing && e.isFile :: e.name
  }

  /**
   * The registry after the loop over `listing` has run: entries are added in
   * listing order, directories and other non-files are skipped.
   */
  function Registry(listing: seq<Entry>): (r: map<string, ParserKind>)
    ensures listing == [] ==> r == map[]
    ensures listing != [] && listing[|listing| - 1].isFile ==>
      listing[|listing| - 1].name in r && r[listing[|listing| - 1].name] == KindFor(listing[|listing| - 1].name)
  {
    if listing == [] then map[]
    else
      var prev := Registry(listing[..|listing| - 1]);
      var e := listing[|listing| - 1];
      if e.isFile then prev[e.name := KindFor(e.name)] else prev
  }

  /**
   * The registry holds exactly the regular files of the listing, each with
   * the parser its name selects; directories never appear.
   */
  lemma {:induction false} RegistryContents(listing: seq<Entry>)
    ensures Registry(listing).Keys == FileNames(listing)
    ensures forall n :: n in Registry(listing) ==> Registry(listing)[n] == KindFor(n)
  {
    if listing != [] {
      var init, e := listing[..|listing| - 1], listing[|listing| - 1];
      RegistryContents(init);
      assert listing == init + [e];
      assert FileNames(listing) == FileNames(init) + (if e.isFile then {e.name} else {});
    }
  }

  /** One more entry of the listing adds its name if it is a regular file, and nothing otherwise. */
  lemma RegistryStep(listing: seq<Entry>, i: nat)
    requires i < |listing|
    ensures Registry(listing[..i + 1]) ==
      if listing[i].isFile then Registry(listing[..i])[listing[i].name := KindFor(listing[i].name)]
      else Registry(listing[..i])
  {
    assert listing[..i + 1][..i] == listing[..i];
  }

  /** The registry depends only on which entries the listing holds, not on their order. */
  lemma RegistryOrderIndependent(l1: seq<Entry>, l2: seq<Entry>)
    requires multiset(l1) == multiset(l2)
    ensures Registry(l1) == Registry(l2)
  {
    forall e ensures e in l1 <==> e in l2 {
      assert e in l1 <==> e in multiset(l1);
      assert e in l2 <==> e in multiset(l2);
    }
    assert FileNames(l1) == FileNames(l2);
    RegistryContents(l1);
    RegistryContents(l2);
  }

  /** `os.path.join(dir, name)` for two path components (POSIX flavour). */
  function PathJoin(dir: string, name: string): (p: string)
    ensures |name| <= |p| && p[|p| - |name|..] == name
    ensures (name == [] || name[0] != '/') ==> |dir| <= |p| && p[..|dir|] == dir
  {
    if |name| > 0 && name[0] == '/' then name
    else if dir == [] || dir[|dir| - 1] == '/' then dir + name
    else dir + "/" + name
  }

  /** `os.path.basename(path)`: what follows the last `/`. */
  function Basename(path: string): (b: string)
    ensures '/' !in b
  {
    if path == [] || path[|path| - 1] == '/' then []
    else Basename(path[..|path| - 1]) + [path[|path| - 1]]
  }

  lemma {:induction false} BasenameAfterSeparator(dir: string, name: string)
    requires dir == [] || dir[|dir| - 1] == '/'
    requires '/' !in name
    ensures Basename(dir + name) == name
    decreases |name|
  {
    var p := dir + name;
    if name == [] {
      assert p == dir;
    } else {
      var init, last := name[..|name| - 1], name[|name| - 1];
      assert last != '/' by { assert last in name; }
      assert p[|p| - 1] == last;
      assert p[..|p| - 1] == dir + init;
      BasenameAfterSeparator(dir, init);
      assert Basename(p) == init + [last];
      assert name == init + [last];
    }
  }

  /**
   * The path built for a listed name names that file in the directory: it
   * starts with the directory, at most one `/` separates the two, and its
   * basename is the name again. Names from a directory listing never hold `/`.
   */
  lemma JoinThenBasename(dir: string, name: string)
    requires '/' !in name
    ensures PathJoin(dir, name) == dir + name || PathJoin(dir, name) == dir + "/" + name
    ensures Basename(PathJoin(dir, name)) == name
  {
    if dir == [] || dir[|dir| - 1] == '/' {
      BasenameAfterSeparator(dir, name);
    } else {
      assert dir + "/" + name == (dir + "/") + name;
      BasenameAfterSeparator(dir + "/", name);
    }
  }
}
