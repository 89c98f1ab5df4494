/** The command-line bootstrap's configuration loading (`ckan/cli/__init__.py`):
    `CKANConfigLoader`, which reads the `app:main` section of an INI file and
    follows `use = config:<relative path>` links from file to file, and the
    choice of the starting file in `load_config`.

    The operating system is a parameter (`Host`): which files can be read and
    what they hold, `os.path.abspath`, `dirname`, `join` and `expanduser` as
    uninterpreted functions, the working directory and the environment. */
module CkanCli {
  import opened PyValue
  import opened PyText

  type Path = string

  /** The options of one INI section, as raw (uninterpolated) strings. */
  type Options = map<string, string>

  /** A parsed INI file: section name to its options. */
  type IniFile = map<string, Options>

  datatype Host = Host(
    files: map<Path, IniFile>,   // the readable files; `os.path.exists` is membership
    abspath: Path -> Path,
    dirname: Path -> Path,
    join: (Path, Path) -> Path,
    expanduser: Path -> Path,
    cwd: Path,
    environ: map<string, string>)

  const MainSection: string := "app:main"
  const DefaultSection: string := "DEFAULT"
  const FileKey: string := "__file__"
  const HereKey: string := "here"
  const UseKey: string := "use"
  const GlobalConfKey: string := "global_conf"
  const ConfigScheme: string := "config"
  const EnvVar: string := "CKAN_INI"
  const DefaultFilenames: seq<Path> := ["ckan.ini", "development.ini"]

  /** A value of the loaded configuration: an option's string, or the nested
      `global_conf` dictionary. */
  datatype ConfigValue = Text(text: string) | Table(table: Options)

  type Config = map<string, ConfigValue>

  datatype LoadError =
    | NoSectionError(section: string)            // configparser.NoSectionError
    | NoOptionError(section: string, option: string)  // configparser.NoOptionError
    | MalformedUse(value: string)                // ValueError unpacking `use.split(':')`
    | GlobalConfReplaced                         // TypeError: `global_conf` was overwritten by a string
    | CircularChain(chain: seq<Path>)            // CkanConfigurationException
    | NoConfigGiven(candidates: seq<Path>)       // CkanConfigurationException
    | ConfigNotFound(filename: Path, givenBy: seq<string>)  // CkanConfigurationException

  /** The options `section` has in the file at `path` (none when the file
      cannot be read or has no such section). */
  function FileSection(host: Host, path: Path, section: string): Options {
    if path in host.files && section in host.files[path] then host.files[path][section] else map[]
  }

  /** The `app:main` options of one file. */
  function FileMain(host: Host, path: Path): Options {
    FileSection(host, path, MainSection)
  }

  /** The `[DEFAULT]` options of one file. */
  function FileDefaults(host: Host, path: Path): Options {
    FileSection(host, path, DefaultSection)
  }

  /** The state of the loader's `ConfigParser`: its defaults (`_defaults`)
      and every other section read so far. */
  datatype ParserState = ParserState(defaults: Options, sections: map<string, Options>) {

    /** `parser.read(filename)`: the file's `[DEFAULT]` options are set on the
        defaults, and its other sections are laid over those already read,
        option by option; a file that cannot be read is skipped. */
    function Read(host: Host, filename: Path): (r: ParserState)
      ensures r.defaults.Keys == defaults.Keys + FileDefaults(host, filename).Keys
      ensures forall o :: o in FileDefaults(host, filename) ==> r.defaults[o] == FileDefaults(host, filename)[o]
      ensures forall s :: s in r.sections <==>
        s in sections || (filename in host.files && s in host.files[filename] && s != DefaultSection)
    {
      if filename in host.files then
        var file := host.files[filename];
        ParserState(defaults + FileDefaults(host, filename), Overlay(sections, file - {DefaultSection}))
      else this
    }

    /** `parser.options(section)`: the section's options and the defaults. */
    function Options(section: string): (r: Result<set<string>, LoadError>)
      ensures r.Ok? <==> section in sections
      ensures r.Err? ==> r.error == NoSectionError(section)
      ensures r.Ok? ==> r.value == sections[section].Keys + defaults.Keys
    {
      if section in sections then Ok(sections[section].Keys + defaults.Keys)
      else Err(NoSectionError(section))
    }

    /** `parser.get(section, option)` without interpolation: the section's own
        value first, then the default. */
    function Get(section: string, option: string): (r: Result<string, LoadError>)
      ensures r.Ok? <==> Options(section).Ok? && option in Options(section).value
      ensures r.Err? && section !in sections ==> r.error == NoSectionError(section)
      ensures r.Err? && section in sections ==> r.error == NoOptionError(section, option)
      ensures r.Ok? && option in sections[section] ==> r.value == sections[section][option]
      ensures r.Ok? && option !in sections[section] ==> r.value == defaults[option]
    {
      if section !in sections then Err(NoSectionError(section))
      else if option in sections[section] then Ok(sections[section][option])
      else if option in defaults then Ok(defaults[option])
      else Err(NoOptionError(section, option))
    }
  }

  function Overlay(sections: map<string, Options>, file: IniFile): map<string, Options> {
    map s | s in sections.Keys + file.Keys ::
      (if s in sections then sections[s] else map[]) + (if s in file then file[s] else map[])
  }

  /** The `app:main` options read so far. */
  function MainOf(p: ParserState): Options {
    if MainSection in p.sections then p.sections[MainSection] else map[]
  }

  /** A file read through the parser adds its `app:main` options over the earlier ones. */
  lemma MainAfterRead(p: ParserState, host: Host, path: Path)
    ensures MainOf(p.Read(host, path)) == MainOf(p) + FileMain(host, path)
    ensures MainSection in p.Read(host, path).sections <==>
      MainSection in p.sections || (path in host.files && MainSection in host.files[path])
  {
    if path in host.files {
      var file := host.files[path];
      if MainSection !in file {
        assert MainOf(p) + FileMain(host, path) == MainOf(p);
      }
    } else {
      assert MainOf(p) + map[] == MainOf(p);
    }
  }

  /** `os.path.abspath`, `os.path.dirname(os.path.abspath(_))` and
      `os.path.join(os.getcwd(), _)` on the host. */
  function AbsPath(host: Host, path: Path): Path {
    host.abspath(path)
  }

  function DirOf(host: Host, path: Path): Path {
    host.dirname(host.abspath(path))
  }

  function InCwd(host: Host, name: Path): Path {
    host.join(host.cwd, name)
  }

  /** `os.path.expanduser`. */
  function ExpandUser(host: Host, path: Path): Path {
    host.expanduser(path)
  }

  function InitialParser(host: Host, file: Path): ParserState {
    ParserState(map[FileKey := AbsPath(host, file)], map[])
  }

  /** `_read_config_file`: set the `here` default to the file's directory, then read it. */
  function AfterRead(p: ParserState, host: Host, filename: Path): ParserState {
    p.(defaults := p.defaults[HereKey := DirOf(host, filename)]).Read(host, filename)
  }

  /** A read points `here` at the file's directory unless the file's
      `[DEFAULT]` section sets it, sets every option of that section, and
      keeps the other defaults. */
  lemma AfterReadDefaults(p: ParserState, host: Host, x: Path)
    ensures var d, fd := AfterRead(p, host, x).defaults, FileDefaults(host, x);
      forall o ::
        && (o in d <==> o in p.defaults || o == HereKey || o in fd)
        && (o in d ==> d[o] == if o in fd then fd[o] else if o == HereKey then DirOf(host, x) else p.defaults[o])
  {
  }

  /** Options the loader itself treats apart: the defaults it sets and the
      nested `global_conf`. */
  predicate Ordinary(o: string) {
    o != FileKey && o != HereKey && o != GlobalConfKey
  }

  /** `config['global_conf']` is a dictionary. */
  predicate WellFormed(config: Config) {
    GlobalConfKey in config && config[GlobalConfKey].Table?
  }

  /** What `_update_config` needs to handle every option without failing:
      `app:main` was read and `global_conf` is not one of the defaults. */
  predicate Mergeable(config: Config, p: ParserState) {
    WellFormed(config) && MainSection in p.sections && GlobalConfKey !in p.defaults
  }

  /** The value `parser.get` gives for an option that `parser.options` listed. */
  function Raw(p: ParserState, o: string): string
    requires MainSection in p.sections
    requires o in p.sections[MainSection] || o in p.defaults
  {
    if o in p.sections[MainSection] then p.sections[MainSection][o] else p.defaults[o]
  }

  /** The configuration after `_update_config` has handled the options in `done`. */
  function MergeOptions(config: Config, p: ParserState, done: set<string>): Config
    requires Mergeable(config, p)
    requires forall o :: o in done ==> o in p.sections[MainSection] || o in p.defaults
  {
    (config + Written(config, p, done))[GlobalConfKey := Table(Mirror(config, p, done))]
  }

  /** The options of `done` that `_update_config` writes: new ones and defaults. */
  function Written(config: Config, p: ParserState, done: set<string>): map<string, ConfigValue>
    requires MainSection in p.sections
    requires forall o :: o in done ==> o in p.sections[MainSection] || o in p.defaults
  {
    map o | o in done && (o !in config || o in p.defaults) :: Text(Raw(p, o))
  }

  /** `global_conf` after the defaults among `done` were mirrored into it. */
  function Mirror(config: Config, p: ParserState, done: set<string>): Options
    requires Mergeable(config, p)
  {
    config[GlobalConfKey].table + Restrict(DefaultValues(p), done)
  }

  /** The value `parser.get` gives for each default. */
  function DefaultValues(p: ParserState): Options
    requires MainSection in p.sections
  {
    map x | x in p.defaults :: Raw(p, x)
  }

  /** `m` restricted to the keys in `s`. */
  function Restrict<V>(m: map<string, V>, s: set<string>): map<string, V> {
    map x | x in s && x in m :: m[x]
  }

  lemma RestrictStep<V>(m: map<string, V>, s: set<string>, o: string)
    ensures Restrict(m, s + {o}) == if o in m then Restrict(m, s)[o := m[o]] else Restrict(m, s)
  {
  }

  lemma UpdateUnion<V>(base: map<string, V>, m: map<string, V>, o: string, v: V)
    ensures base + m[o := v] == (base + m)[o := v]
  {
  }

  lemma WrittenStep(config: Config, p: ParserState, done: set<string>, o: string)
    requires MainSection in p.sections
    requires forall x :: x in done ==> x in p.sections[MainSection] || x in p.defaults
    requires o !in done && (o in p.sections[MainSection] || o in p.defaults)
    ensures Written(config, p, done + {o}) ==
      if o !in config || o in p.defaults then Written(config, p, done)[o := Text(Raw(p, o))] else Written(config, p, done)
  {
  }

  lemma MirrorStep(config: Config, p: ParserState, done: set<string>, o: string)
    requires Mergeable(config, p)
    requires o in p.sections[MainSection] || o in p.defaults
    ensures Mirror(config, p, done + {o}) ==
      if o in p.defaults then Mirror(config, p, done)[o := Raw(p, o)] else Mirror(config, p, done)
  {
    var d := DefaultValues(p);
    RestrictStep(d, done, o);
    if o in p.defaults {
      UpdateUnion(config[GlobalConfKey].table, Restrict(d, done), o, d[o]);
    }
  }

  /** `MergeOptions` key by key. */
  lemma MergeOptionsAt(config: Config, p: ParserState, done: set<string>, k: string)
    requires Mergeable(config, p)
    requires forall x :: x in done ==> x in p.sections[MainSection] || x in p.defaults
    ensures var m := MergeOptions(config, p, done);
      && GlobalConfKey in m && m[GlobalConfKey].Table?
      && (k in m <==> k in config || k in done)
      && (k in m && k != GlobalConfKey ==>
            m[k] == if k in done && (k !in config || k in p.defaults) then Text(Raw(p, k)) else config[k])
      && (k in m[GlobalConfKey].table <==> k in config[GlobalConfKey].table || (k in done && k in p.defaults))
      && (k in m[GlobalConfKey].table ==>
            m[GlobalConfKey].table[k] == if k in done && k in p.defaults then Raw(p, k) else config[GlobalConfKey].table[k])
  {
  }

  lemma MergeNothing(config: Config, p: ParserState)
    requires Mergeable(config, p)
    ensures MergeOptions(config, p, {}) == config
  {
    var m := MergeOptions(config, p, {});
    forall k ensures (k in m <==> k in config) && (k in m ==> m[k] == config[k]) {
      MergeOptionsAt(config, p, {}, k);
      if k == GlobalConfKey {
        forall j ensures (j in m[k].table <==> j in config[k].table) && (j in m[k].table ==> m[k].table[j] == config[k].table[j]) {
          MergeOptionsAt(config, p, {}, j);
        }
        assert m[k].table == config[k].table;
      }
    }
  }

  /** Handling one more option is the update `_update_config` makes for it. */
  lemma MergeOptionsStep(config: Config, p: ParserState, done: set<string>, o: string)
    requires Mergeable(config, p)
    requires forall x :: x in done ==> x in p.sections[MainSection] || x in p.defaults
    requires o !in done && (o in p.sections[MainSection] || o in p.defaults)
    ensures var m := MergeOptions(config, p, done);
      MergeOptions(config, p, done + {o}) ==
        if o !in m || o in p.defaults then
          var m1 := m[o := Text(Raw(p, o))];
          if o in p.defaults then m1[GlobalConfKey := Table(m1[GlobalConfKey].table[o := Raw(p, o)])] else m1
        else m
  {
    WrittenStep(config, p, done, o);
    MirrorStep(config, p, done, o);
    UpdateAlgebra(config, Written(config, p, done), Mirror(config, p, done), o, Text(Raw(p, o)), Raw(p, o),
      o !in config || o in p.defaults, o in p.defaults);
  }

  /** The map algebra behind one step of the merge. */
  lemma UpdateAlgebra(config: Config, w: map<string, ConfigValue>, t: Options, o: string, v: ConfigValue, r: string,
                      write: bool, mirror: bool)
    requires GlobalConfKey in config && (write ==> o != GlobalConfKey) && (mirror ==> write)
    requires !write ==> o in config
    ensures var m := (config + w)[GlobalConfKey := Table(t)];
      (config + (if write then w[o := v] else w))[GlobalConfKey := Table(if mirror then t[o := r] else t)] ==
        if o !in m || write then
          var m1 := m[o := v];
          if mirror then m1[GlobalConfKey := Table(t[o := r])] else m1
        else m
  {
  }

  /** The result of `_update_config`. It fails when no file read so far has
      `app:main`, and when `global_conf` is a default: the loop then writes
      the default's string over `config['global_conf']` and the item
      assignment into it raises. */
  function Merged(config: Config, p: ParserState): (r: Result<Config, LoadError>)
    requires WellFormed(config)
    ensures r.Ok? ==> WellFormed(r.value)
    ensures r.Err? ==> r.error == NoSectionError(MainSection) || r.error == GlobalConfReplaced
  {
    if MainSection !in p.sections then Err(NoSectionError(MainSection))
    else if GlobalConfKey in p.defaults then Err(GlobalConfReplaced)
    else Ok(MergeOptions(config, p, p.sections[MainSection].Keys + p.defaults.Keys))
  }

  /** The merge rule: an option already in the configuration keeps its value
      unless it is a parser default; new options take the parser's value; every
      default is rewritten and mirrored into `global_conf`. */
  lemma MergeRule(config: Config, p: ParserState)
    requires WellFormed(config)
    ensures Merged(config, p).Ok? <==> Mergeable(config, p)
    ensures MainSection !in p.sections ==> Merged(config, p) == Err(NoSectionError(MainSection))
    ensures MainSection in p.sections && GlobalConfKey in p.defaults ==> Merged(config, p) == Err(GlobalConfReplaced)
    ensures Merged(config, p).Ok? ==> var r := Merged(config, p).value;
      && WellFormed(r)
      && r.Keys == config.Keys + p.sections[MainSection].Keys + p.defaults.Keys
      && (forall o :: o in config && o !in p.defaults && o != GlobalConfKey ==> r[o] == config[o])
      && (forall o :: o in p.sections[MainSection] && o !in config ==> r[o] == Text(p.sections[MainSection][o]))
      && (forall o :: o in p.defaults ==> r[o] == Text(Raw(p, o)))
      && r[GlobalConfKey].table.Keys == config[GlobalConfKey].table.Keys + p.defaults.Keys
      && (forall o :: o in p.defaults ==> r[GlobalConfKey].table[o] == Raw(p, o))
      && (forall o :: o in config[GlobalConfKey].table && o !in p.defaults ==>
            r[GlobalConfKey].table[o] == config[GlobalConfKey].table[o])
  {
    if Mergeable(config, p) {
      var all := p.sections[MainSection].Keys + p.defaults.Keys;
      assert Merged(config, p).value == MergeOptions(config, p, all);
      MergeKeys(config, p, all);
      MergeValues(config, p, all);
      MergeMirrorValues(config, p, all);
    }
  }

  /** The keys of the configuration and of `global_conf` after a merge. */
  lemma MergeKeys(config: Config, p: ParserState, all: set<string>)
    requires Mergeable(config, p)
    requires all == p.sections[MainSection].Keys + p.defaults.Keys
    ensures var r := MergeOptions(config, p, all);
      && r.Keys == config.Keys + all
      && GlobalConfKey in r && r[GlobalConfKey].Table?
      && r[GlobalConfKey].table.Keys == config[GlobalConfKey].table.Keys + p.defaults.Keys
  {
    var r := MergeOptions(config, p, all);
    forall k
      ensures (k in r <==> k in config || k in all)
      ensures (k in r[GlobalConfKey].table <==> k in config[GlobalConfKey].table || k in p.defaults)
    {
      MergeOptionsAt(config, p, all, k);
    }
  }

  /** The values of the configuration after a merge. */
  lemma MergeValues(config: Config, p: ParserState, all: set<string>)
    requires Mergeable(config, p)
    requires all == p.sections[MainSection].Keys + p.defaults.Keys
    ensures var r := MergeOptions(config, p, all);
      && (forall o :: o in config && o !in p.defaults && o != GlobalConfKey ==> r[o] == config[o])
      && (forall o :: o in p.sections[MainSection] && o !in config ==> r[o] == Text(p.sections[MainSection][o]))
      && (forall o :: o in p.defaults ==> r[o] == Text(Raw(p, o)))
  {
    var r := MergeOptions(config, p, all);
    forall k ensures k in r && k != GlobalConfKey ==>
      r[k] == if k in all && (k !in config || k in p.defaults) then Text(Raw(p, k)) else config[k]
    {
      MergeOptionsAt(config, p, all, k);
    }
  }

  /** The values of `global_conf` after a merge. */
  lemma MergeMirrorValues(config: Config, p: ParserState, all: set<string>)
    requires Mergeable(config, p)
    requires all == p.sections[MainSection].Keys + p.defaults.Keys
    ensures var r := MergeOptions(config, p, all);
      && GlobalConfKey in r && r[GlobalConfKey].Table?
      && (forall o :: o in p.defaults ==> o in r[GlobalConfKey].table && r[GlobalConfKey].table[o] == Raw(p, o))
      && (forall o :: o in config[GlobalConfKey].table && o !in p.defaults ==>
            o in r[GlobalConfKey].table && r[GlobalConfKey].table[o] == config[GlobalConfKey].table[o])
  {
    var r := MergeOptions(config, p, all);
    forall k ensures k in r[GlobalConfKey].table <==> k in config[GlobalConfKey].table || k in p.defaults
    {
      MergeOptionsAt(config, p, all, k);
    }
    forall k ensures k in r[GlobalConfKey].table ==>
      r[GlobalConfKey].table[k] == if k in p.defaults then Raw(p, k) else config[GlobalConfKey].table[k]
    {
      MergeOptionsAt(config, p, all, k);
    }
  }

  /** The merge of one ordinary option: a value already present stays,
      otherwise the section's value is taken. */
  lemma MergeOrdinary(config: Config, p: ParserState, o: string)
    requires Mergeable(config, p) && Ordinary(o) && o !in p.defaults
    ensures var r := Merged(config, p).value;
      && (o in r <==> o in config || o in MainOf(p))
      && (o in r ==> r[o] == if o in config then config[o] else Text(MainOf(p)[o]))
  {
    var all := p.sections[MainSection].Keys + p.defaults.Keys;
    MergeOptionsAt(config, p, all, o);
  }

  /** Index of the first `c` in `s`. */
  function IndexOf(s: string, c: char): (r: Option<nat>)
    ensures r.None? ==> c !in s
    ensures r.Some? ==> r.value < |s| && s[r.value] == c && c !in s[..r.value]
  {
    if s == [] then None
    else if s[0] == c then Some(0)
    else match IndexOf(s[1..], c)
      case None => None
      case Some(i) => assert s[1..][..i] == s[1..i + 1]; Some(i + 1)
  }

  /** `schema, path = value.split(':')`: the unpacking succeeds exactly when
      the value holds one colon. */
  function SplitUse(value: string): Result<(string, string), LoadError> {
    match IndexOf(value, ':')
    case None => Err(MalformedUse(value))
    case Some(i) =>
      if ':' in value[i + 1..] then Err(MalformedUse(value))
      else Ok((value[..i], value[i + 1..]))
  }

  /** The unpacking succeeds exactly for one colon, splits the value around
      it, and otherwise reports the value. */
  lemma SplitUseColons(value: string)
    ensures SplitUse(value).Ok? <==> multiset(value)[':'] == 1
    ensures SplitUse(value).Ok? ==> var parts := SplitUse(value).value;
      value == parts.0 + [':'] + parts.1 && ':' !in parts.0 && ':' !in parts.1
    ensures SplitUse(value).Err? ==> SplitUse(value).error == MalformedUse(value)
  {
    match IndexOf(value, ':')
    case None =>
    case Some(i) =>
      assert value == value[..i] + [':'] + value[i + 1..];
      assert multiset(value)[':'] == multiset(value[..i])[':'] + 1 + multiset(value[i + 1..])[':'];
  }

  /** The path a `use = config:<relative>` link in `current` leads to. */
  function Resolve(host: Host, current: Path, relative: Path): Path {
    host.join(DirOf(host, current), relative)
  }

  /** A bound on the number of links the chain may follow. */
  datatype Fuel = Empty | More(rest: Fuel)

  datatype Outcome =
    | Loaded(config: Config, parser: ParserState, loaded: seq<Path>)
    | Failed(error: LoadError)
    | OutOfFuel

  /** Where the `use` option of the section read so far leads: an error from
      the parser or the unpacking, `None` for a scheme other than `config`,
      or the resolved path of the next file. */
  function NextLink(host: Host, p: ParserState, current: Path): (r: Result<Option<Path>, LoadError>)
    ensures p.Get(MainSection, UseKey).Err? ==> r == Err(p.Get(MainSection, UseKey).error)
    ensures p.Get(MainSection, UseKey).Ok? && r.Err? ==> r.error == MalformedUse(p.Get(MainSection, UseKey).value)
    ensures p.Get(MainSection, UseKey).Ok? ==> (r.Ok? <==> SplitUse(p.Get(MainSection, UseKey).value).Ok?)
    ensures p.Get(MainSection, UseKey).Ok? && SplitUse(p.Get(MainSection, UseKey).value).Ok? ==>
      (r == Ok(None) <==> SplitUse(p.Get(MainSection, UseKey).value).value.0 != ConfigScheme)
  {
    match p.Get(MainSection, UseKey)
    case Err(e) => Err(e)
    case Ok(use) =>
      match SplitUse(use)
      case Err(e) => Err(e)
      case Ok(parts) =>
        if parts.0 != ConfigScheme then Ok(None) else Ok(Some(Resolve(host, current, parts.1)))
  }

  /** The `while True` loop of `_create_config_object`, from the state after
      `current` (the last of `loaded`) was merged. `fuel` bounds the number of
      links followed: the loop itself need not stop. */
  function Follow(host: Host, config: Config, p: ParserState, current: Path, loaded: seq<Path>, fuel: Fuel): Outcome
    requires WellFormed(config)
    decreases fuel, 0
  {
    match NextLink(host, p, current)
    case Err(e) => Failed(e)
    case Ok(None) => Loaded(config, p, loaded)
    case Ok(Some(next)) =>
      if next in loaded then Failed(CircularChain(loaded + [next]))
      else match fuel
        case Empty => OutOfFuel
        case More(rest) => FollowRead(host, config, p, next, loaded + [next], rest)
  }

  /** The rest of one loop iteration: read `next` (already appended to
      `loaded`), merge it, and go round again. */
  function FollowRead(host: Host, config: Config, p: ParserState, next: Path, loaded: seq<Path>, fuel: Fuel): Outcome
    requires WellFormed(config)
    decreases fuel, 1
  {
    var p' := AfterRead(p, host, next);
    match Merged(config, p')
    case Err(e) => Failed(e)
    case Ok(config') => Follow(host, config', p', next, loaded, fuel)
  }

  /** `_create_config_object` for the (already stripped) file `file`, starting
      from the state the constructor leaves. */
  function LoadChain(host: Host, file: Path, fuel: Fuel): Outcome {
    var p := AfterRead(InitialParser(host, file), host, file);
    var config := map[GlobalConfKey := Table(p.defaults)];
    match Merged(config, p)
    case Err(e) => Failed(e)
    case Ok(config') => Follow(host, config', p, file, [file], fuel)
  }

  // ---------------------------------------------------------------------------
  // The reference definitions the chain is proved against

  ghost predicate IsLink(host: Host, from: Path, to: Path) {
    exists relative :: to == Resolve(host, from, relative)
  }

  /** Each file after the first is reached from its predecessor's directory. */
  ghost predicate Chained(host: Host, files: seq<Path>) {
    forall i :: 0 < i < |files| ==> IsLink(host, files[i - 1], files[i])
  }

  /** The value of `o` in the earliest of `files` whose `app:main` sets it. */
  function FirstValue(host: Host, files: seq<Path>, o: string): Option<string>
    decreases |files|
  {
    if files == [] then None
    else
      var earlier := FirstValue(host, files[..|files| - 1], o);
      if earlier.Some? then earlier
      else if o in FileMain(host, files[|files| - 1]) then Some(FileMain(host, files[|files| - 1])[o])
      else None
  }

  /** The value of `o` in the latest of `files` whose `section` sets it. */
  function LastValue(host: Host, files: seq<Path>, section: string, o: string): Option<string>
    decreases |files|
  {
    if files == [] then None
    else
      var final := FileSection(host, files[|files| - 1], section);
      if o in final then Some(final[o]) else LastValue(host, files[..|files| - 1], section, o)
  }

  /** The parser default `o` once `files` were read: the latest `[DEFAULT]`
      setting, except that `here` is reset to each file's directory before it
      is read, and `__file__` starts as the first file's absolute path. */
  function DefaultAfter(host: Host, files: seq<Path>, o: string): Option<string> {
    if files == [] then None
    else
      var final := files[|files| - 1];
      var fromFiles := LastValue(host, files, DefaultSection, o);
      if o == HereKey && HereKey !in FileDefaults(host, final) then Some(DirOf(host, final))
      else if o == FileKey && fromFiles.None? then Some(AbsPath(host, files[0]))
      else fromFiles
  }

  /** Ordinary options that no file sets in `[DEFAULT]` are in the
      configuration exactly when some file read sets them in `app:main`, each
      with the value of the earliest such file. */
  ghost predicate Agrees(host: Host, config: Config, p: ParserState, files: seq<Path>) {
    forall o :: Ordinary(o) ==>
      && (o in MainOf(p) <==> FirstValue(host, files, o).Some?)
      && (LastValue(host, files, DefaultSection, o).None? ==>
            && o !in p.defaults
            && (o in config <==> FirstValue(host, files, o).Some?)
            && (o in config ==> config[o] == Text(FirstValue(host, files, o).value)))
  }

  /** The parser's defaults are those `DefaultAfter` gives. */
  ghost predicate DefaultsAgree(host: Host, p: ParserState, files: seq<Path>) {
    forall o ::
      && (o in p.defaults <==> DefaultAfter(host, files, o).Some?)
      && (o in p.defaults ==> p.defaults[o] == DefaultAfter(host, files, o).value)
  }

  /** Each `app:main` option the parser holds is the latest file's setting. */
  ghost predicate MainAgrees(host: Host, p: ParserState, files: seq<Path>) {
    forall o ::
      && (o in MainOf(p) <==> LastValue(host, files, MainSection, o).Some?)
      && (o in MainOf(p) ==> MainOf(p)[o] == LastValue(host, files, MainSection, o).value)
  }

  /** Every parser default is in the configuration and in `global_conf`, with the parser's value. */
  ghost predicate Mirrored(config: Config, p: ParserState) {
    && WellFormed(config)
    && MainSection in p.sections
    && forall k :: k in p.defaults ==>
      && k in config && config[k] == Text(Raw(p, k))
      && k in config[GlobalConfKey].table && config[GlobalConfKey].table[k] == Raw(p, k)
  }

  /** The state after the files `files` have been read and merged in order. */
  ghost predicate ChainState(host: Host, config: Config, p: ParserState, files: seq<Path>) {
    && |files| > 0
    && Distinct(files)
    && Chained(host, files)
    && DefaultsAgree(host, p, files)
    && MainAgrees(host, p, files)
    && Agrees(host, config, p, files)
    && Mirrored(config, p)
  }

  lemma FirstValueAppend(host: Host, files: seq<Path>, x: Path, o: string)
    ensures FirstValue(host, files + [x], o) ==
      if FirstValue(host, files, o).Some? then FirstValue(host, files, o)
      else if o in FileMain(host, x) then Some(FileMain(host, x)[o]) else None
  {
    assert (files + [x])[..|files|] == files;
  }

  lemma LastValueAppend(host: Host, files: seq<Path>, x: Path, section: string, o: string)
    ensures LastValue(host, files + [x], section, o) ==
      if o in FileSection(host, x, section) then Some(FileSection(host, x, section)[o])
      else LastValue(host, files, section, o)
  {
    assert (files + [x])[..|files|] == files;
  }

  /** Reading one more file and merging it keeps the configuration in
      agreement with the earliest-file-wins reference. */
  lemma {:induction false} ReadMergeAgrees(host: Host, config: Config, p: ParserState, files: seq<Path>, x: Path)
    requires WellFormed(config)
    requires Agrees(host, config, p, files)
    requires Merged(config, AfterRead(p, host, x)).Ok?
    ensures Agrees(host, Merged(config, AfterRead(p, host, x)).value, AfterRead(p, host, x), files + [x])
  {
    var p0 := p.(defaults := p.defaults[HereKey := DirOf(host, x)]);
    var p' := AfterRead(p, host, x);
    var L := files + [x];
    assert MainOf(p0) == MainOf(p);
    MainAfterRead(p0, host, x);
    AfterReadDefaults(p, host, x);
    var r := Merged(config, p').value;
    forall o | Ordinary(o)
      ensures o in MainOf(p') <==> FirstValue(host, L, o).Some?
      ensures LastValue(host, L, DefaultSection, o).None? ==>
        && o !in p'.defaults
        && (o in r <==> FirstValue(host, L, o).Some?)
        && (o in r ==> r[o] == Text(FirstValue(host, L, o).value))
    {
      FirstValueAppend(host, files, x, o);
      LastValueAppend(host, files, x, DefaultSection, o);
      if LastValue(host, L, DefaultSection, o).None? {
        MergeOrdinary(config, p', o);
      }
    }
  }

  /** A read keeps the parser's defaults equal to `DefaultAfter` for the longer list. */
  lemma ReadDefaultsAgree(host: Host, p: ParserState, files: seq<Path>, x: Path)
    requires |files| > 0 && DefaultsAgree(host, p, files)
    ensures DefaultsAgree(host, AfterRead(p, host, x), files + [x])
  {
    var L := files + [x];
    assert L[0] == files[0] && L[|L| - 1] == x;
    AfterReadDefaults(p, host, x);
    forall o
      ensures o in AfterRead(p, host, x).defaults <==> DefaultAfter(host, L, o).Some?
      ensures o in AfterRead(p, host, x).defaults ==> AfterRead(p, host, x).defaults[o] == DefaultAfter(host, L, o).value
    {
      LastValueAppend(host, files, x, DefaultSection, o);
    }
  }

  /** A read keeps the parser's `app:main` equal to the latest settings. */
  lemma ReadMainAgrees(host: Host, p: ParserState, files: seq<Path>, x: Path)
    requires MainAgrees(host, p, files)
    ensures MainAgrees(host, AfterRead(p, host, x), files + [x])
  {
    var p0 := p.(defaults := p.defaults[HereKey := DirOf(host, x)]);
    assert MainOf(p0) == MainOf(p);
    MainAfterRead(p0, host, x);
    forall o
      ensures o in MainOf(AfterRead(p, host, x)) <==> LastValue(host, files + [x], MainSection, o).Some?
      ensures o in MainOf(AfterRead(p, host, x)) ==>
        MainOf(AfterRead(p, host, x))[o] == LastValue(host, files + [x], MainSection, o).value
    {
      LastValueAppend(host, files, x, MainSection, o);
    }
  }

  /** The invariant of the chain loop holds after the first file. */
  lemma FirstFileState(host: Host, file: Path)
    requires var p := AfterRead(InitialParser(host, file), host, file);
      Merged(map[GlobalConfKey := Table(p.defaults)], p).Ok?
    ensures var p := AfterRead(InitialParser(host, file), host, file);
      ChainState(host, Merged(map[GlobalConfKey := Table(p.defaults)], p).value, p, [file])
  {
    var p0 := InitialParser(host, file);
    var p := AfterRead(p0, host, file);
    var c := map[GlobalConfKey := Table(p.defaults)];
    assert WellFormed(c);
    assert Agrees(host, c, p0, []);
    assert [] + [file] == [file];
    ReadMergeAgrees(host, c, p0, [], file);
    assert MainAgrees(host, p0, []);
    ReadMainAgrees(host, p0, [], file);
    FirstDefaultsAgree(host, file);
    MergeRule(c, p);
  }

  /** After the first read the defaults are those `DefaultAfter` gives. */
  lemma FirstDefaultsAgree(host: Host, file: Path)
    ensures DefaultsAgree(host, AfterRead(InitialParser(host, file), host, file), [file])
  {
    forall o
      ensures var d := AfterRead(InitialParser(host, file), host, file).defaults;
        && (o in d <==> DefaultAfter(host, [file], o).Some?)
        && (o in d ==> d[o] == DefaultAfter(host, [file], o).value)
    {
      FirstDefaultAt(host, file, o);
    }
  }

  lemma FirstDefaultAt(host: Host, file: Path, o: string)
    ensures var d := AfterRead(InitialParser(host, file), host, file).defaults;
      && (o in d <==> DefaultAfter(host, [file], o).Some?)
      && (o in d ==> d[o] == DefaultAfter(host, [file], o).value)
  {
    AfterReadDefaults(InitialParser(host, file), host, file);
    LastValueAppend(host, [], file, DefaultSection, o);
    assert [] + [file] == [file];
  }

  /** Appending a path reached by a link keeps a chain distinct and linked. */
  lemma ExtendChain(host: Host, files: seq<Path>, next: Path)
    requires |files| > 0 && Chained(host, files) && IsLink(host, files[|files| - 1], next)
    ensures Chained(host, files + [next]) && (files + [next])[..|files|] == files
    ensures Distinct(files) && next !in files ==> Distinct(files + [next])
  {
    var L := files + [next];
    forall i | 0 < i < |L| ensures IsLink(host, L[i - 1], L[i]) {
      if i < |files| { assert L[i - 1] == files[i - 1] && L[i] == files[i]; }
    }
    assert L[..|files|] == files;
  }

  /** A followed link comes from a `use` value `config:<path>` with no
      other colon, and leads to `path` joined to the current file's directory. */
  lemma NextLinkIsLink(host: Host, p: ParserState, current: Path)
    requires NextLink(host, p, current).Ok? && NextLink(host, p, current).value.Some?
    ensures p.Get(MainSection, UseKey).Ok?
    ensures var use, n := p.Get(MainSection, UseKey).value, |ConfigScheme| + 1;
      && StartsWith(use, ConfigScheme + ":")
      && ':' !in use[n..]
      && NextLink(host, p, current).value.value == Resolve(host, current, use[n..])
    ensures IsLink(host, current, NextLink(host, p, current).value.value)
  {
    var use := p.Get(MainSection, UseKey).value;
    SplitUseColons(use);
    var parts := SplitUse(use).value;
    assert use == ConfigScheme + ":" + parts.1;
    assert use[|ConfigScheme| + 1..] == parts.1;
    assert NextLink(host, p, current).value.value == Resolve(host, current, parts.1);
  }

  /** Conversely, a `use` value `config:<path>` with no other colon is
      followed to `path` joined to the current file's directory. */
  lemma ConfigUseLinks(host: Host, p: ParserState, current: Path, path: Path)
    requires p.Get(MainSection, UseKey) == Ok(ConfigScheme + ":" + path) && ':' !in path
    ensures NextLink(host, p, current) == Ok(Some(Resolve(host, current, path)))
  {
    SplitConfigUse(path);
  }

  /** `config:<path>` splits into the scheme and the path when `path` has no colon. */
  lemma SplitConfigUse(path: Path)
    requires ':' !in path
    ensures SplitUse(ConfigScheme + ":" + path) == Ok((ConfigScheme, path))
  {
    SplitSchemeUse(ConfigScheme, path);
  }

  /** `<scheme>:<rest>` without another colon splits around its colon. */
  lemma SplitSchemeUse(scheme: string, rest: string)
    requires ':' !in scheme && ':' !in rest
    ensures SplitUse(scheme + ":" + rest) == Ok((scheme, rest))
  {
    var use := scheme + ":" + rest;
    var n := |scheme|;
    assert use[..n] == scheme && use[n] == ':' && use[n + 1..] == rest;
    IndexOfAt(use, ':', n);
  }

  /** The first `c` is found where it is. */
  lemma {:induction false} IndexOfAt(s: string, c: char, k: nat)
    requires k < |s| && s[k] == c && c !in s[..k]
    ensures IndexOf(s, c) == Some(k)
  {
    if k > 0 {
      assert s[0] == s[..k][0];
      assert s[1..][..k - 1] == s[..k][1..];
      IndexOfAt(s[1..], c, k - 1);
    }
  }

  /** One followed link keeps the invariant of the chain loop. */
  lemma NextFileState(host: Host, config: Config, p: ParserState, files: seq<Path>, x: Path)
    requires ChainState(host, config, p, files)
    requires IsLink(host, files[|files| - 1], x) && x !in files
    requires Merged(config, AfterRead(p, host, x)).Ok?
    ensures ChainState(host, Merged(config, AfterRead(p, host, x)).value, AfterRead(p, host, x), files + [x])
  {
    var p' := AfterRead(p, host, x);
    var L := files + [x];
    ReadMergeAgrees(host, config, p, files, x);
    ReadDefaultsAgree(host, p, files, x);
    ReadMainAgrees(host, p, files, x);
    MergeRule(config, p');
    ExtendChain(host, files, x);
    assert Mirrored(Merged(config, p').value, p');
  }

  /** What the loop of `_create_config_object` ends in, from a state where the
      invariant holds. */
  ghost predicate FollowEnds(host: Host, files: seq<Path>, out: Outcome) {
    match out
    case Loaded(c, p, L) => |L| >= |files| && L[..|files|] == files && ChainState(host, c, p, L)
    case Failed(e) =>
      e.CircularChain? ==>
        && |e.chain| > |files|
        && e.chain[..|files|] == files
        && Distinct(e.chain[..|e.chain| - 1])
        && Chained(host, e.chain)
        && e.chain[|e.chain| - 1] in e.chain[..|e.chain| - 1]
    case OutOfFuel => true
  }

  /** An outcome reached from a longer chain is also one reached from its prefix. */
  lemma FollowEndsPrefix(host: Host, files: seq<Path>, next: Path, out: Outcome)
    requires FollowEnds(host, files + [next], out)
    ensures FollowEnds(host, files, out)
  {
    var L := files + [next];
    assert L[..|files|] == files;
    match out
    case Loaded(c, q, M) => assert M[..|files|] == M[..|L|][..|files|];
    case Failed(e) =>
      if e.CircularChain? { assert e.chain[..|files|] == e.chain[..|L|][..|files|]; }
    case OutOfFuel =>
  }

  /** Reaching an already loaded file reports the cycle. */
  lemma FollowEndsCycle(host: Host, config: Config, p: ParserState, current: Path, files: seq<Path>, next: Path, fuel: Fuel)
    requires WellFormed(config) && |files| > 0 && current == files[|files| - 1]
    requires Distinct(files) && Chained(host, files)
    requires NextLink(host, p, current) == Ok(Some(next)) && next in files
    ensures FollowEnds(host, files, Follow(host, config, p, current, files, fuel))
  {
    NextLinkIsLink(host, p, current);
    ExtendChain(host, files, next);
    assert Follow(host, config, p, current, files, fuel) == Failed(CircularChain(files + [next]));
  }

  /** One turn of the loop: stop on an error or another scheme, report a
      cycle, or go on to read the linked file. */
  lemma FollowCases(host: Host, config: Config, p: ParserState, current: Path, files: seq<Path>, fuel: Fuel)
    requires WellFormed(config)
    ensures var link, out := NextLink(host, p, current), Follow(host, config, p, current, files, fuel);
      && (link.Err? ==> out == Failed(link.error))
      && (link == Ok(None) ==> out == Loaded(config, p, files))
      && (link.Ok? && link.value.Some? && link.value.value in files ==>
            out == Failed(CircularChain(files + [link.value.value])))
      && (link.Ok? && link.value.Some? && link.value.value !in files && fuel.Empty? ==> out == OutOfFuel)
      && (link.Ok? && link.value.Some? && link.value.value !in files && fuel.More? ==>
            out == FollowRead(host, config, p, link.value.value, files + [link.value.value], fuel.rest))
  {
    var link := NextLink(host, p, current);
    if link.Err? {
    } else if link.value.None? {
    } else if link.value.value in files {
    } else if fuel.Empty? {
    } else {
    }
  }

  /** Reading a file either fails to merge or goes round the loop again from the merged state. */
  lemma FollowReadCases(host: Host, config: Config, p: ParserState, next: Path, files: seq<Path>, fuel: Fuel)
    requires WellFormed(config)
    ensures var p' := AfterRead(p, host, next);
      && (Merged(config, p').Err? ==> FollowRead(host, config, p, next, files, fuel) == Failed(Merged(config, p').error))
      && (Merged(config, p').Ok? ==>
            FollowRead(host, config, p, next, files, fuel) == Follow(host, Merged(config, p').value, p', next, files, fuel))
  {
  }

  /** From a state where the invariant holds, the loop either loads a distinct
      chain that keeps it, or reports a cycle through the files loaded so far. */
  lemma {:induction false} FollowKeepsState(host: Host, config: Config, p: ParserState, current: Path, files: seq<Path>, fuel: Fuel)
    requires ChainState(host, config, p, files) && current == files[|files| - 1]
    ensures FollowEnds(host, files, Follow(host, config, p, current, files, fuel))
    decreases fuel, 1
  {
    var link := NextLink(host, p, current);
    if link.Ok? && link.value.Some? && link.value.value !in files && fuel.More? {
      ReadKeepsState(host, config, p, current, files, link.value.value, fuel);
    } else if link.Ok? && link.value.Some? && link.value.value in files {
      FollowEndsCycle(host, config, p, current, files, link.value.value, fuel);
    } else if link.Ok? && link.value.None? {
      assert files[..|files|] == files;
    }
  }

  /** Reading and merging a newly linked file keeps the invariant, or fails
      with the parser's error. */
  lemma {:induction false} ReadKeepsState(host: Host, config: Config, p: ParserState, current: Path, files: seq<Path>, next: Path, fuel: Fuel)
    requires ChainState(host, config, p, files) && current == files[|files| - 1]
    requires NextLink(host, p, current) == Ok(Some(next)) && next !in files && fuel.More?
    ensures FollowEnds(host, files, Follow(host, config, p, current, files, fuel))
    decreases fuel, 0
  {
    var p' := AfterRead(p, host, next);
    var L := files + [next];
    FollowCases(host, config, p, current, files, fuel);
    var rest := fuel.rest;
    FollowReadCases(host, config, p, next, L, rest);
    if Merged(config, p').Ok? {
      var c' := Merged(config, p').value;
      NextLinkIsLink(host, p, current);
      NextFileState(host, config, p, files, next);
      assert L[|L| - 1] == next;
      FollowKeepsState(host, c', p', next, L, rest);
      FollowEndsPrefix(host, files, next, Follow(host, c', p', next, L, rest));
    }
  }

  /** Everything the loader promises about a completed chain or a detected cycle. */
  lemma LoadChainEnds(host: Host, file: Path, fuel: Fuel)
    ensures FollowEnds(host, [file], LoadChain(host, file, fuel))
  {
    var p := AfterRead(InitialParser(host, file), host, file);
    var c := map[GlobalConfKey := Table(p.defaults)];
    if Merged(c, p).Ok? {
      assert LoadChain(host, file, fuel) == Follow(host, Merged(c, p).value, p, file, [file], fuel);
      FirstFileEnds(host, file, fuel);
    }
  }

  lemma FirstFileEnds(host: Host, file: Path, fuel: Fuel)
    requires var p := AfterRead(InitialParser(host, file), host, file);
      Merged(map[GlobalConfKey := Table(p.defaults)], p).Ok?
    ensures var p := AfterRead(InitialParser(host, file), host, file);
      FollowEnds(host, [file], Follow(host, Merged(map[GlobalConfKey := Table(p.defaults)], p).value, p, file, [file], fuel))
  {
    var p := AfterRead(InitialParser(host, file), host, file);
    var c := Merged(map[GlobalConfKey := Table(p.defaults)], p).value;
    FirstFileState(host, file);
    FollowKeepsState(host, c, p, file, [file], fuel);
  }

  /** `loaded_files` starts with the initial file, holds no path twice, and each
      later entry is reached through a `use` link of the entry before it. */
  lemma LoadedFilesDistinct(host: Host, file: Path, fuel: Fuel)
    requires LoadChain(host, file, fuel).Loaded?
    ensures var L := LoadChain(host, file, fuel).loaded;
      |L| >= 1 && L[0] == file && Distinct(L) && Chained(host, L)
  {
    LoadChainEnds(host, file, fuel);
    EndsLoaded(host, file, LoadChain(host, file, fuel));
  }

  lemma EndsLoaded(host: Host, file: Path, out: Outcome)
    requires out.Loaded? && FollowEnds(host, [file], out)
    ensures |out.loaded| >= 1 && out.loaded[0] == file
    ensures ChainState(host, out.config, out.parser, out.loaded)
  {
    assert out.loaded[0] == out.loaded[..1][0];
  }

  /** A cycle is reported with the files loaded so far and the repeated path,
      which is the only repetition in the reported chain. */
  lemma CycleReportsRepeatedPath(host: Host, file: Path, fuel: Fuel)
    requires LoadChain(host, file, fuel).Failed? && LoadChain(host, file, fuel).error.CircularChain?
    ensures var chain := LoadChain(host, file, fuel).error.chain;
      && |chain| >= 2
      && chain[0] == file
      && Distinct(chain[..|chain| - 1])
      && chain[|chain| - 1] in chain[..|chain| - 1]
      && Chained(host, chain)
  {
    LoadChainEnds(host, file, fuel);
    EndsInCycle(host, file, LoadChain(host, file, fuel));
  }

  lemma EndsInCycle(host: Host, file: Path, out: Outcome)
    requires out.Failed? && out.error.CircularChain? && FollowEnds(host, [file], out)
    ensures var chain := out.error.chain;
      && |chain| >= 2
      && chain[0] == file
      && Distinct(chain[..|chain| - 1])
      && chain[|chain| - 1] in chain[..|chain| - 1]
      && Chained(host, chain)
  {
    var chain := out.error.chain;
    assert chain[0] == chain[..1][0];
  }

  /** Ordinary options that no file of the chain sets in `[DEFAULT]` take the
      value of the earliest file in the chain that sets them. */
  lemma EarliestFileWins(host: Host, file: Path, fuel: Fuel, o: string)
    requires LoadChain(host, file, fuel).Loaded?
    requires Ordinary(o) && LastValue(host, LoadChain(host, file, fuel).loaded, DefaultSection, o).None?
    ensures var out := LoadChain(host, file, fuel);
      && (o in out.config <==> FirstValue(host, out.loaded, o).Some?)
      && (o in out.config ==> out.config[o] == Text(FirstValue(host, out.loaded, o).value))
  {
    LoadChainEnds(host, file, fuel);
    EndsLoaded(host, file, LoadChain(host, file, fuel));
  }

  /** Every parser default ends in `config` and in `global_conf` with the
      latest `app:main` value when a file sets one, and otherwise with the
      default's own value: for defaults the latest file wins. */
  lemma DefaultsLatestFileWins(host: Host, file: Path, fuel: Fuel, o: string)
    requires LoadChain(host, file, fuel).Loaded?
    requires DefaultAfter(host, LoadChain(host, file, fuel).loaded, o).Some?
    ensures var out := LoadChain(host, file, fuel);
      var v := match LastValue(host, out.loaded, MainSection, o)
        case Some(v) => v
        case None => DefaultAfter(host, out.loaded, o).value;
      && WellFormed(out.config)
      && o in out.config && out.config[o] == Text(v)
      && o in out.config[GlobalConfKey].table && out.config[GlobalConfKey].table[o] == v
  {
    LoadChainEnds(host, file, fuel);
    var out := LoadChain(host, file, fuel);
    EndsLoaded(host, file, out);
    DefaultValueAt(host, out.config, out.parser, out.loaded, o);
  }

  lemma DefaultValueAt(host: Host, c: Config, p: ParserState, L: seq<Path>, o: string)
    requires ChainState(host, c, p, L) && DefaultAfter(host, L, o).Some?
    ensures var v := match LastValue(host, L, MainSection, o)
        case Some(v) => v
        case None => DefaultAfter(host, L, o).value;
      && WellFormed(c)
      && o in c && c[o] == Text(v)
      && o in c[GlobalConfKey].table && c[GlobalConfKey].table[o] == v
  {
    assert o in p.defaults;
  }

  /** Unless the files set them, `here` is the directory of the last file
      read and `__file__` the absolute path of the first, in `config` and in
      `global_conf` alike. */
  lemma HereIsLastDirectory(host: Host, file: Path, fuel: Fuel)
    requires LoadChain(host, file, fuel).Loaded?
    ensures var out := LoadChain(host, file, fuel);
      var c, L := out.config, out.loaded;
      && |L| > 0 && WellFormed(c)
      && (LastValue(host, L, MainSection, HereKey).None? && HereKey !in FileDefaults(host, L[|L| - 1]) ==>
            && HereKey in c && c[HereKey] == Text(DirOf(host, L[|L| - 1]))
            && HereKey in c[GlobalConfKey].table && c[GlobalConfKey].table[HereKey] == DirOf(host, L[|L| - 1]))
      && (LastValue(host, L, MainSection, FileKey).None? && LastValue(host, L, DefaultSection, FileKey).None? ==>
            && FileKey in c && c[FileKey] == Text(AbsPath(host, file))
            && FileKey in c[GlobalConfKey].table && c[GlobalConfKey].table[FileKey] == AbsPath(host, file))
  {
    LoadChainEnds(host, file, fuel);
    LoadedHereAndFile(host, file, LoadChain(host, file, fuel));
  }

  lemma LoadedHereAndFile(host: Host, file: Path, out: Outcome)
    requires out.Loaded? && FollowEnds(host, [file], out)
    ensures var c, L := out.config, out.loaded;
      && |L| > 0 && WellFormed(c)
      && (LastValue(host, L, MainSection, HereKey).None? && HereKey !in FileDefaults(host, L[|L| - 1]) ==>
            && HereKey in c && c[HereKey] == Text(DirOf(host, L[|L| - 1]))
            && HereKey in c[GlobalConfKey].table && c[GlobalConfKey].table[HereKey] == DirOf(host, L[|L| - 1]))
      && (LastValue(host, L, MainSection, FileKey).None? && LastValue(host, L, DefaultSection, FileKey).None? ==>
            && FileKey in c && c[FileKey] == Text(AbsPath(host, file))
            && FileKey in c[GlobalConfKey].table && c[GlobalConfKey].table[FileKey] == AbsPath(host, file))
  {
    EndsLoaded(host, file, out);
    DefaultValueAt(host, out.config, out.parser, out.loaded, HereKey);
    DefaultValueAt(host, out.config, out.parser, out.loaded, FileKey);
  }

  /** A chain loads only when none of its files sets `global_conf` in `[DEFAULT]`. */
  lemma GlobalConfNeverDefault(host: Host, file: Path, fuel: Fuel)
    requires LoadChain(host, file, fuel).Loaded?
    ensures LastValue(host, LoadChain(host, file, fuel).loaded, DefaultSection, GlobalConfKey).None?
  {
    LoadChainEnds(host, file, fuel);
    var out := LoadChain(host, file, fuel);
    EndsLoaded(host, file, out);
    assert GlobalConfKey !in out.parser.defaults;
  }

  /** The chain loop need not stop: when every link resolves to a longer path
      that cannot be read, the section keeps its `use` value and each turn
      goes one step further, so any bound runs out. */
  lemma {:induction false} LinksGrowForever(host: Host, config: Config, p: ParserState, current: Path,
                                            loaded: seq<Path>, path: Path, fuel: Fuel)
    requires Mergeable(config, p)
    requires p.Get(MainSection, UseKey) == Ok(ConfigScheme + ":" + path) && ':' !in path
    requires forall q :: |Resolve(host, q, path)| > |q| && Resolve(host, q, path) !in host.files
    requires forall i :: 0 <= i < |loaded| ==> |loaded[i]| <= |current|
    ensures Follow(host, config, p, current, loaded, fuel) == OutOfFuel
    decreases fuel
  {
    var next := Resolve(host, current, path);
    ConfigUseLinks(host, p, current, path);
    assert next !in loaded by {
      forall i | 0 <= i < |loaded| ensures loaded[i] != next {
      }
    }
    if fuel.More? {
      var p' := AfterRead(p, host, next);
      assert p'.sections == p.sections && p'.defaults == p.defaults[HereKey := DirOf(host, next)];
      var config' := Merged(config, p').value;
      var L := loaded + [next];
      assert forall i :: 0 <= i < |L| ==> |L[i]| <= |next| by {
        forall i | 0 <= i < |L| ensures |L[i]| <= |next| {
          if i < |loaded| { assert L[i] == loaded[i]; }
        }
      }
      LinksGrowForever(host, config', p', next, L, path, fuel.rest);
    }
  }

  /** A host where the chain never ends: `a` links to `sub/b`, which cannot be
      read, so `a`'s `use` still applies from `sub/b` and leads to `sub/sub/b`,
      then `sub/sub/sub/b`, and so on (paths relative to the working
      directory, `dirname` dropping the last two characters of these names). */
  function SpiralHost(): Host {
    Host(map["a" := map[MainSection := map[UseKey := "config:sub/b"]]],
      path => path,
      path => if |path| >= 2 then path[..|path| - 2] else "",
      (dir, name) => if dir == "" then name else dir + "/" + name,
      path => path,
      "",
      map[])
  }

  lemma SpiralNeverEnds(fuel: Fuel)
    ensures LoadChain(SpiralHost(), "a", fuel) == OutOfFuel
  {
    SpiralFirstRead();
    SpiralLinksGrow();
    FirstLinkGrowsForever(SpiralHost(), "a", "sub/b", fuel);
  }

  /** The chain of a file whose `use` link always leads to a longer path that
      cannot be read runs out of any bound. */
  lemma FirstLinkGrowsForever(host: Host, file: Path, path: Path, fuel: Fuel)
    requires var p := AfterRead(InitialParser(host, file), host, file);
      && MainSection in p.sections && GlobalConfKey !in p.defaults
      && p.Get(MainSection, UseKey) == Ok(ConfigScheme + ":" + path)
    requires ':' !in path
    requires forall q :: |Resolve(host, q, path)| > |q| && Resolve(host, q, path) !in host.files
    ensures LoadChain(host, file, fuel) == OutOfFuel
  {
    var p := AfterRead(InitialParser(host, file), host, file);
    var c := Merged(map[GlobalConfKey := Table(p.defaults)], p).value;
    LinksGrowForever(host, c, p, file, [file], path, fuel);
    assert LoadChain(host, file, fuel) == Follow(host, c, p, file, [file], fuel);
  }

  lemma SpiralFirstRead()
    ensures var host := SpiralHost();
      var p := AfterRead(InitialParser(host, "a"), host, "a");
      && MainSection in p.sections && GlobalConfKey !in p.defaults
      && p.Get(MainSection, UseKey) == Ok(ConfigScheme + ":" + "sub/b")
  {
    var host := SpiralHost();
    var p0 := InitialParser(host, "a");
    var p1 := p0.(defaults := p0.defaults[HereKey := DirOf(host, "a")]);
    assert FileDefaults(host, "a") == map[];
    MainAfterRead(p1, host, "a");
    var p := p1.Read(host, "a");
    assert MainOf(p) == map[UseKey := "config:sub/b"];
    assert MainSection in p.sections;
    assert p.defaults.Keys == {FileKey, HereKey};
    assert ConfigScheme + ":" + "sub/b" == "config:sub/b";
  }

  lemma SpiralLinksGrow()
    ensures forall q :: |Resolve(SpiralHost(), q, "sub/b")| > |q| && Resolve(SpiralHost(), q, "sub/b") !in SpiralHost().files
  {
    var host := SpiralHost();
    forall q ensures |Resolve(host, q, "sub/b")| > |q| && Resolve(host, q, "sub/b") !in host.files {
    }
  }

  /** What a two-file chain needs: `first` links with `config:<relative>` to
      `second`, a different readable file whose own `use` names another
      scheme, and neither file has a `[DEFAULT]` section. */
  predicate TwoFileChain(host: Host, first: Path, second: Path, relative: Path) {
    && first in host.files && second in host.files && first != second
    && MainSection in host.files[first] && MainSection in host.files[second]
    && DefaultSection !in host.files[first] && DefaultSection !in host.files[second]
    && UseKey in host.files[first][MainSection]
    && host.files[first][MainSection][UseKey] == ConfigScheme + ":" + relative && ':' !in relative
    && Resolve(host, first, relative) == second
    && UseKey in host.files[second][MainSection]
    && SplitUse(host.files[second][MainSection][UseKey]).Ok?
    && SplitUse(host.files[second][MainSection][UseKey]).value.0 != ConfigScheme
  }

  /** A chain that ends on another scheme loads, given one link of fuel or
      more: both files are read, in order. */
  lemma TwoFileChainLoads(host: Host, first: Path, second: Path, relative: Path, fuel: Fuel)
    requires TwoFileChain(host, first, second, relative) && fuel.More?
    ensures LoadChain(host, first, fuel).Loaded?
    ensures LoadChain(host, first, fuel).loaded == [first, second]
  {
    TwoFileFirstRead(host, first, second, relative);
    TwoFileSecondRead(host, first, second, relative);
    LinkedPairLoads(host, first, second, fuel);
  }

  /** A first file that links to a second one, whose own link ends the loop,
      loads both. */
  lemma LinkedPairLoads(host: Host, first: Path, second: Path, fuel: Fuel)
    requires var p1 := AfterRead(InitialParser(host, first), host, first);
      var p2 := AfterRead(p1, host, second);
      && MainSection in p1.sections && GlobalConfKey !in p1.defaults && NextLink(host, p1, first) == Ok(Some(second))
      && MainSection in p2.sections && GlobalConfKey !in p2.defaults && NextLink(host, p2, second) == Ok(None)
    requires first != second && fuel.More?
    ensures LoadChain(host, first, fuel).Loaded?
    ensures LoadChain(host, first, fuel).loaded == [first, second]
  {
    var p1 := AfterRead(InitialParser(host, first), host, first);
    var c1 := Merged(map[GlobalConfKey := Table(p1.defaults)], p1).value;
    LinkedPairFollows(host, c1, p1, first, second, fuel);
    LoadChainFirst(host, first, fuel);
  }

  /** The loop itself, from the first file's merged state. */
  lemma LinkedPairFollows(host: Host, config: Config, p: ParserState, first: Path, second: Path, fuel: Fuel)
    requires WellFormed(config) && NextLink(host, p, first) == Ok(Some(second))
    requires Mergeable(config, AfterRead(p, host, second)) && NextLink(host, AfterRead(p, host, second), second) == Ok(None)
    requires first != second && fuel.More?
    ensures Follow(host, config, p, first, [first], fuel).Loaded?
    ensures Follow(host, config, p, first, [first], fuel).loaded == [first, second]
  {
    LinkThenStop(host, config, p, first, [first], second, fuel);
    PairAppend(Follow(host, config, p, first, [first], fuel).loaded, first, second);
  }

  lemma PairAppend<T>(s: seq<T>, x: T, y: T)
    requires s == [x] + [y]
    ensures s == [x, y]
  {
  }

  /** The chain is the loop started from the first file's merged state. */
  lemma LoadChainFirst(host: Host, file: Path, fuel: Fuel)
    requires var p := AfterRead(InitialParser(host, file), host, file);
      Merged(map[GlobalConfKey := Table(p.defaults)], p).Ok?
    ensures var p := AfterRead(InitialParser(host, file), host, file);
      LoadChain(host, file, fuel) == Follow(host, Merged(map[GlobalConfKey := Table(p.defaults)], p).value, p, file, [file], fuel)
  {
  }

  /** One link to a new file whose own link ends the loop completes the chain. */
  lemma LinkThenStop(host: Host, config: Config, p: ParserState, current: Path, loaded: seq<Path>, next: Path, fuel: Fuel)
    requires WellFormed(config) && fuel.More?
    requires NextLink(host, p, current) == Ok(Some(next)) && next !in loaded
    requires Merged(config, AfterRead(p, host, next)).Ok?
    requires NextLink(host, AfterRead(p, host, next), next) == Ok(None)
    ensures var out := Follow(host, config, p, current, loaded, fuel);
      && out.Loaded? && out.loaded == loaded + [next]
  {
    var p' := AfterRead(p, host, next);
    var config' := Merged(config, p').value;
    FollowCases(host, config, p, current, loaded, fuel);
    FollowReadCases(host, config, p, next, loaded + [next], fuel.rest);
    FollowCases(host, config', p', next, loaded + [next], fuel.rest);
  }

  /** The first file of a two-file chain reads and links to the second. */
  lemma TwoFileFirstRead(host: Host, first: Path, second: Path, relative: Path)
    requires TwoFileChain(host, first, second, relative)
    ensures var p := AfterRead(InitialParser(host, first), host, first);
      && MainSection in p.sections && GlobalConfKey !in p.defaults
      && NextLink(host, p, first) == Ok(Some(second))
  {
    var p0 := InitialParser(host, first);
    var p1 := AfterRead(p0, host, first);
    MainAfterRead(p0.(defaults := p0.defaults[HereKey := DirOf(host, first)]), host, first);
    AfterReadDefaults(p0, host, first);
    assert p1.Get(MainSection, UseKey) == Ok(ConfigScheme + ":" + relative);
    ConfigUseLinks(host, p1, first, relative);
  }

  /** The second file of a two-file chain reads and ends the chain. */
  lemma TwoFileSecondRead(host: Host, first: Path, second: Path, relative: Path)
    requires TwoFileChain(host, first, second, relative)
    ensures var p := AfterRead(AfterRead(InitialParser(host, first), host, first), host, second);
      && MainSection in p.sections && GlobalConfKey !in p.defaults
      && NextLink(host, p, second) == Ok(None)
  {
    var p1 := AfterRead(InitialParser(host, first), host, first);
    TwoFileFirstRead(host, first, second, relative);
    var p2 := AfterRead(p1, host, second);
    MainAfterRead(p1.(defaults := p1.defaults[HereKey := DirOf(host, second)]), host, second);
    AfterReadDefaults(p1, host, second);
    assert p2.Get(MainSection, UseKey) == Ok(host.files[second][MainSection][UseKey]);
  }

  /** Over two files without `[DEFAULT]`, the earliest `app:main` setting. */
  lemma TwoFileValues(host: Host, first: Path, second: Path, o: string)
    requires first in host.files && second in host.files
    requires DefaultSection !in host.files[first] && DefaultSection !in host.files[second]
    ensures LastValue(host, [first, second], DefaultSection, o).None?
    ensures FirstValue(host, [first, second], o) ==
      if o in FileMain(host, first) then Some(FileMain(host, first)[o])
      else if o in FileMain(host, second) then Some(FileMain(host, second)[o]) else None
  {
    var L := [first, second];
    assert L[..1] == [first] && [first][..0] == [];
    assert FileSection(host, first, DefaultSection) == map[] && FileSection(host, second, DefaultSection) == map[];
    assert LastValue(host, [], DefaultSection, o).None?;
    assert LastValue(host, [first], DefaultSection, o).None?;
    assert FirstValue(host, [first], o) == if o in FileMain(host, first) then Some(FileMain(host, first)[o]) else None;
  }

  /** In a loaded two-file chain an ordinary option is set iff either file
      sets it, and the first file's value wins. */
  lemma TwoFileEarliestWins(host: Host, first: Path, second: Path, relative: Path, fuel: Fuel, o: string)
    requires TwoFileChain(host, first, second, relative) && Ordinary(o) && fuel.More?
    ensures var out := LoadChain(host, first, fuel);
      && out.Loaded?
      && (o in out.config <==> o in FileMain(host, first) || o in FileMain(host, second))
      && (o in out.config ==>
            out.config[o] == Text(if o in FileMain(host, first) then FileMain(host, first)[o] else FileMain(host, second)[o]))
  {
    TwoFileChainLoads(host, first, second, relative, fuel);
    TwoFileValues(host, first, second, o);
    EarliestFileWins(host, first, fuel, o);
  }

  /** A host where the chain loads: `a` sets `x = 1` and links to `b`, which
      sets `x = 2` and `y = 3` and ends the chain with another scheme. */
  function PairHost(): Host {
    Host(map["a" := map[MainSection := map[UseKey := "config:b", "x" := "1"]],
             "b" := map[MainSection := map[UseKey := "egg:ckan", "x" := "2", "y" := "3"]]],
      path => path,
      path => "",
      (dir, name) => if dir == "" then name else dir + "/" + name,
      path => path,
      "",
      map[])
  }

  /** `egg:ckan` names another scheme. */
  lemma EggScheme()
    ensures SplitUse("egg:ckan") == Ok(("egg", "ckan"))
  {
    SplitSchemeUse("egg", "ckan");
    assert "egg" + ":" + "ckan" == "egg:ckan";
  }

  lemma PairIsTwoFileChain()
    ensures TwoFileChain(PairHost(), "a", "b", "b")
  {
    EggScheme();
    assert ConfigScheme + ":" + "b" == "config:b";
  }

  /** `PairHost` loads `a` then `b` within one link; `x` keeps the value of
      `a`, the earlier file, and `y` comes from `b`. */
  lemma PairChainLoads()
    ensures var out := LoadChain(PairHost(), "a", More(Empty));
      && out.Loaded? && out.loaded == ["a", "b"]
      && "x" in out.config && out.config["x"] == Text("1")
      && "y" in out.config && out.config["y"] == Text("3")
  {
    PairIsTwoFileChain();
    TwoFileChainLoads(PairHost(), "a", "b", "b", More(Empty));
    TwoFileEarliestWins(PairHost(), "a", "b", "b", More(Empty), "x");
    TwoFileEarliestWins(PairHost(), "a", "b", "b", More(Empty), "y");
  }

  // ---------------------------------------------------------------------------
  // The loader object

  class CkanConfigLoader {
    var config: Config
    var configFile: Path
    var parser: ParserState
    var section: string
    const host: Host

    /** `__init__` up to the call of `_create_config_object`: strip the file
        name and make `__file__` its absolute path. */
    constructor (host: Host, filename: string)
      ensures this.host == host && configFile == Strip(filename) && section == MainSection
      ensures config == map[] && parser == InitialParser(host, configFile)
    {
      this.host := host;
      configFile := Strip(filename);
      config := map[];
      parser := ParserState(map[], map[]);
      section := MainSection;
      new;
      var initial := map[FileKey := AbsPath(host, configFile)];
      UpdateDefaults(initial);
      assert map[] + initial == initial;
    }

    /** `_update_defaults`: set each given default on the parser. */
    method UpdateDefaults(newDefaults: Options)
      modifies this
      ensures parser == old(parser).(defaults := old(parser.defaults) + newDefaults)
      ensures config == old(config) && configFile == old(configFile) && section == old(section)
    {
      var todo := newDefaults.Keys;
      ghost var done: set<string> := {};
      while todo != {}
        invariant done <= newDefaults.Keys && todo == newDefaults.Keys - done
        invariant parser.sections == old(parser.sections)
        invariant parser.defaults.Keys == old(parser.defaults).Keys + done
        invariant forall k :: k in parser.defaults ==>
          parser.defaults[k] == if k in done then newDefaults[k] else old(parser.defaults)[k]
        invariant config == old(config) && configFile == old(configFile) && section == old(section)
        decreases todo
      {
        var key :| key in todo;
        parser := parser.(defaults := parser.defaults[key := newDefaults[key]]);
        todo := todo - {key};
        done := done + {key};
      }
      assert parser.defaults == old(parser.defaults) + newDefaults;
    }

    /** `_read_config_file`. */
    method ReadConfigFile(filename: Path)
      modifies this
      ensures parser == AfterRead(old(parser), host, filename)
      ensures config == old(config) && configFile == old(configFile) && section == old(section)
    {
      var here := DirOf(host, filename);
      UpdateDefaults(map[HereKey := here]);
      assert parser.defaults == old(parser.defaults)[HereKey := here];
      parser := parser.Read(host, filename);
    }

    /** `_update_config`: merge every option the parser lists for the section. */
    method UpdateConfig() returns (err: Option<LoadError>)
      requires section == MainSection && WellFormed(config)
      modifies this
      ensures parser == old(parser) && configFile == old(configFile) && section == old(section)
      ensures err.None? <==> Merged(old(config), parser).Ok?
      ensures err.None? ==> config == Merged(old(config), parser).value
      ensures err.Some? ==> err == Some(Merged(old(config), parser).error)
      ensures err == Some(NoSectionError(MainSection)) ==> config == old(config)
    {
      var options := parser.Options(section);
      if options.Err? {
        return Some(options.error);
      }
      ghost var start := config;
      assert MainSection in parser.sections && options.value == parser.sections[MainSection].Keys + parser.defaults.Keys;
      if GlobalConfKey !in parser.defaults {
        MergeNothing(start, parser);
      }
      var todo := options.value;
      while todo != {}
        invariant todo <= options.value
        invariant parser == old(parser) && configFile == old(configFile) && section == old(section)
        invariant WellFormed(config)
        invariant GlobalConfKey in parser.defaults ==> GlobalConfKey in todo
        invariant GlobalConfKey !in parser.defaults ==> config == MergeOptions(start, parser, options.value - todo)
        decreases todo
      {
        var option :| option in todo;
        ghost var done := options.value - todo;
        if GlobalConfKey !in parser.defaults {
          MergeOptionsStep(start, parser, done, option);
        }
        if option !in config || option in parser.defaults {
          var value := parser.Get(section, option).value;
          assert value == Raw(parser, option);
          config := config[option := Text(value)];
          if option in parser.defaults {
            if !config[GlobalConfKey].Table? {
              // `global_conf` itself is a default: its string has just replaced
              // the dictionary, and the item assignment into it raises.
              return Some(GlobalConfReplaced);
            }
            config := config[GlobalConfKey := Table(config[GlobalConfKey].table[option := value])];
          }
        }
        assert done + {option} == options.value - (todo - {option});
        todo := todo - {option};
      }
      assert options.value - todo == options.value;
      err := None;
    }

    /** `_create_config_object`: read the starting file, then follow the
        `use = config:` links until a link of another scheme, failing on a path
        already loaded. `loadedFiles` is the local `loaded_files`. */
    method CreateConfigObject(ghost fuel: Fuel) returns (err: Option<LoadError>, ghost loadedFiles: seq<Path>)
      requires section == MainSection && config == map[] && parser == InitialParser(host, configFile)
      requires !LoadChain(host, configFile, fuel).OutOfFuel?
      modifies this
      ensures configFile == old(configFile) && section == old(section)
      ensures err.None? ==> LoadChain(host, configFile, fuel) == Loaded(config, parser, loadedFiles)
      ensures err.Some? ==> LoadChain(host, configFile, fuel) == Failed(err.value)
    {
      ghost var target := LoadChain(host, configFile, fuel);
      var usePath := configFile;
      ReadConfigFile(usePath);
      config := config[GlobalConfKey := Table(parser.defaults)];
      err := UpdateConfig();
      loadedFiles := [];
      if err.Some? {
        return;
      }
      var loaded := [usePath];
      ghost var fuelLeft := fuel;
      while true
        invariant section == MainSection && configFile == old(configFile) && WellFormed(config)
        invariant err.None? && |loaded| > 0 && usePath == loaded[|loaded| - 1]
        invariant Follow(host, config, parser, usePath, loaded, fuelLeft) == target
        decreases fuelLeft
      {
        var next;
        next, err := FollowLink(usePath, loaded, fuelLeft, target);
        if err.Some? {
          return err, [];
        }
        if next.None? {
          break;
        }
        usePath := next.value;
        loaded := loaded + [usePath];
        fuelLeft := fuelLeft.rest;
      }
      loadedFiles := loaded;
    }

    /** One turn of the `while True` loop of `_create_config_object`: look up
        `use`, and for a `config:` link to a new file, read and merge that file.
        `next` is the file read, `None` when the loop ends. */
    method FollowLink(usePath: Path, loaded: seq<Path>, ghost fuel: Fuel, ghost target: Outcome)
      returns (next: Option<Path>, err: Option<LoadError>)
      requires section == MainSection && WellFormed(config)
      requires |loaded| > 0 && usePath == loaded[|loaded| - 1]
      requires Follow(host, config, parser, usePath, loaded, fuel) == target && !target.OutOfFuel?
      modifies this
      ensures configFile == old(configFile) && section == MainSection
      ensures err.Some? ==> target == Failed(err.value)
      ensures err.None? && next.None? ==> target == Loaded(config, parser, loaded)
      ensures err.None? && next.Some? ==>
        && fuel.More? && next.value !in loaded && WellFormed(config)
        && Follow(host, config, parser, next.value, loaded + [next.value], fuel.rest) == target
    {
      ghost var link := NextLink(host, parser, usePath);
      FollowCases(host, config, parser, usePath, loaded, fuel);
      var use := parser.Get(section, UseKey);
      if use.Err? {
        assert link == Err(use.error);
        return None, Some(use.error);
      }
      var parts := SplitUse(use.value);
      if parts.Err? {
        assert link == Err(parts.error);
        return None, Some(parts.error);
      }
      var (schema, path) := parts.value;
      if schema != ConfigScheme {
        assert link == Ok(None);
        return None, None;
      }
      var resolved := Resolve(host, usePath, path);
      assert link == Ok(Some(resolved));
      if resolved in loaded {
        return None, Some(CircularChain(loaded + [resolved]));
      }
      ghost var before, p := config, parser;
      ReadConfigFile(resolved);
      err := UpdateConfig();
      FollowReadCases(host, before, p, resolved, loaded + [resolved], fuel.rest);
      next := if err.None? then Some(resolved) else None;
    }

    /** `get_config`: a copy of the configuration; the loader is left as it was. */
    method GetConfig() returns (copy: Config)
      ensures copy == config
    {
      copy := config;
    }
  }

  /** `CKANConfigLoader(filename)`: construct, then run the chain; an exception
      leaves the caller without a loader. */
  method NewConfigLoader(host: Host, filename: string, ghost fuel: Fuel) returns (r: Result<CkanConfigLoader, LoadError>)
    requires !LoadChain(host, Strip(filename), fuel).OutOfFuel?
    ensures r.Ok? <==> LoadChain(host, Strip(filename), fuel).Loaded?
    ensures r.Ok? ==> fresh(r.value) && r.value.config == LoadChain(host, Strip(filename), fuel).config
    ensures r.Err? ==> LoadChain(host, Strip(filename), fuel) == Failed(r.error)
  {
    var loader := new CkanConfigLoader(host, filename);
    var err, loaded := loader.CreateConfigObject(fuel);
    if err.Some? {
      return Err(err.value);
    }
    return Ok(loader);
  }

  // ---------------------------------------------------------------------------
  // Choosing the file in `load_config`

  /** The first of `names` that exists in the working directory. */
  function FirstExisting(host: Host, names: seq<Path>): (r: Option<Path>)
    ensures r.Some? ==> r.value in host.files
    ensures r.Some? ==> exists i :: (0 <= i < |names| && r.value == InCwd(host, names[i]) &&
      forall j :: 0 <= j < i ==> InCwd(host, names[j]) !in host.files)
    ensures r.None? ==> forall j :: 0 <= j < |names| ==> InCwd(host, names[j]) !in host.files
    decreases |names|
  {
    if names == [] then None
    else if InCwd(host, names[0]) in host.files then Some(InCwd(host, names[0]))
    else
      var r := FirstExisting(host, names[1..]);
      if r.Some? then
        ghost var i :| 0 <= i < |names| - 1 && r.value == InCwd(host, names[1..][i])
          && forall j :: 0 <= j < i ==> InCwd(host, names[1..][j]) !in host.files;
        assert r.value == InCwd(host, names[i + 1]);
        r
      else r
  }

  function ExistingOrError(host: Host, filename: Path, givenBy: seq<string>): Result<Path, LoadError> {
    if filename == "" || filename !in host.files then Err(ConfigNotFound(filename, givenBy)) else Ok(filename)
  }

  /** The explicit path, with a leading `~` expanded, made absolute. */
  function ExplicitPath(host: Host, iniPath: string): Path {
    AbsPath(host, if StartsWith(iniPath, "~") then ExpandUser(host, iniPath) else iniPath)
  }

  predicate HasExplicit(iniPath: Option<string>) {
    iniPath.Some? && iniPath.value != ""
  }

  predicate HasEnvVar(host: Host) {
    EnvVar in host.environ && host.environ[EnvVar] != ""
  }

  /** The file `load_config` hands to the loader: an explicit path first, then
      `$CKAN_INI`, then the first default name present in the working directory. */
  function ChooseConfigFile(host: Host, iniPath: Option<string>): Result<Path, LoadError> {
    if HasExplicit(iniPath) then ExistingOrError(host, ExplicitPath(host, iniPath.value), ["-c parameter"])
    else if HasEnvVar(host) then ExistingOrError(host, host.environ[EnvVar], ["$CKAN_INI"])
    else match FirstExisting(host, DefaultFilenames)
      case None => Err(NoConfigGiven(DefaultFilenames))
      case Some(f) => if f == "" then Err(NoConfigGiven(DefaultFilenames)) else ExistingOrError(host, f, DefaultFilenames)
  }

  /** The priority `load_config` applies, and that the chosen file exists. */
  lemma ConfigFilePriority(host: Host, iniPath: Option<string>)
    ensures var r := ChooseConfigFile(host, iniPath);
      && (r.Ok? ==> r.value in host.files && r.value != "")
      && (HasExplicit(iniPath) ==> r.Ok? || r.error == ConfigNotFound(ExplicitPath(host, iniPath.value), ["-c parameter"]))
      && (HasExplicit(iniPath) && r.Ok? ==> r.value == ExplicitPath(host, iniPath.value))
      && (!HasExplicit(iniPath) && HasEnvVar(host) ==>
            r == (if host.environ[EnvVar] in host.files && host.environ[EnvVar] != "" then Ok(host.environ[EnvVar])
                  else Err(ConfigNotFound(host.environ[EnvVar], ["$CKAN_INI"]))))
      && (!HasExplicit(iniPath) && !HasEnvVar(host) ==>
            var ckan, dev := InCwd(host, "ckan.ini"), InCwd(host, "development.ini");
            && (ckan in host.files ==> r == if ckan != "" then Ok(ckan) else Err(NoConfigGiven(DefaultFilenames)))
            && (ckan !in host.files && dev in host.files ==>
                  r == if dev != "" then Ok(dev) else Err(NoConfigGiven(DefaultFilenames)))
            && (ckan !in host.files && dev !in host.files ==> r == Err(NoConfigGiven(DefaultFilenames))))
  {
    if !HasExplicit(iniPath) && !HasEnvVar(host) {
      var ckan, dev := InCwd(host, "ckan.ini"), InCwd(host, "development.ini");
      var first := FirstExisting(host, DefaultFilenames);
      if ckan in host.files {
        assert first == Some(ckan);
      } else if dev in host.files {
        assert DefaultFilenames[1..] == ["development.ini"];
        assert first == Some(dev);
      }
    }
  }

  /** The file-choice part of `load_config`, with its loop over the default names. */
  method SelectConfigFile(host: Host, iniPath: Option<string>) returns (r: Result<Path, LoadError>)
    ensures r == ChooseConfigFile(host, iniPath)
  {
    var filename: Path;
    var configSource: seq<string>;
    if HasExplicit(iniPath) {
      var path := iniPath.value;
      if StartsWith(path, "~") {
        path := ExpandUser(host, path);
      }
      filename := AbsPath(host, path);
      configSource := ["-c parameter"];
    } else if HasEnvVar(host) {
      filename := host.environ[EnvVar];
      configSource := ["$CKAN_INI"];
    } else {
      configSource := DefaultFilenames;
      var found: Option<Path> := None;
      var i := 0;
      while i < |DefaultFilenames|
        invariant 0 <= i <= |DefaultFilenames|
        invariant found.None? ==> FirstExisting(host, DefaultFilenames) == FirstExisting(host, DefaultFilenames[i..])
        invariant found.Some? ==> found == FirstExisting(host, DefaultFilenames)
        decreases |DefaultFilenames| - i
      {
        var checkFile := InCwd(host, DefaultFilenames[i]);
        if checkFile in host.files {
          found := Some(checkFile);
          break;
        }
        i := i + 1;
      }
      if found.None? || found.value == "" {
        return Err(NoConfigGiven(DefaultFilenames));
      }
      filename := found.value;
    }
    if filename == "" || filename !in host.files {
      return Err(ConfigNotFound(filename, configSource));
    }
    r := Ok(filename);
  }

  /** `load_config`: choose the file, load its chain and return a copy of the
      configuration. `fuel` bounds the links the chain may follow. */
  method LoadConfig(host: Host, iniPath: Option<string>, ghost fuel: Fuel) returns (r: Result<Config, LoadError>)
    requires ChooseConfigFile(host, iniPath).Ok? ==> !LoadChain(host, Strip(ChooseConfigFile(host, iniPath).value), fuel).OutOfFuel?
    ensures ChooseConfigFile(host, iniPath).Err? ==> r == Err(ChooseConfigFile(host, iniPath).error)
    ensures ChooseConfigFile(host, iniPath).Ok? ==>
      var out := LoadChain(host, Strip(ChooseConfigFile(host, iniPath).value), fuel);
      && (out.Loaded? ==> r == Ok(out.config))
      && (out.Failed? ==> r == Err(out.error))
  {
    var filename := SelectConfigFile(host, iniPath);
    if filename.Err? {
      return Err(filename.error);
    }
    var loader := NewConfigLoader(host, filename.value, fuel);
    if loader.Err? {
      return Err(loader.error);
    }
    var config := loader.value.GetConfig();
    return Ok(config);
  }

  /** The text of the `CkanConfigurationException` each failure is reported with. */
  function ErrorMessage(e: LoadError): (msg: string)
    ensures e.CircularChain? ==>
      msg == "Circular dependency located in the configuration chain: " + JoinWith(" -> ", e.chain)
    ensures e.ConfigNotFound? ==> StartsWith(msg, "Config file not found: " + e.filename + "\n(Given by: ")
  {
    match e
    case NoSectionError(s) => "No section: '" + s + "'"
    case NoOptionError(s, o) => "No option '" + o + "' in section: '" + s + "'"
    case MalformedUse(v) =>
      if ':' in v then "too many values to unpack (expected 2)"
      else "not enough values to unpack (expected 2, got 1)"
    case GlobalConfReplaced => "'str' object does not support item assignment"
    case CircularChain(chain) => "Circular dependency located in the configuration chain: " + JoinWith(" -> ", chain)
    case NoConfigGiven(names) =>
      "\nERROR: You need to specify the CKAN config (.ini) file path.\n\n"
      + "Use the --config parameter or set environment variable CKAN_INI\n"
      + "or have one of " + JoinWith(", ", names) + " in the current directory."
    case ConfigNotFound(f, source) =>
      var m := "Config file not found: " + f + "\n(Given by: ";
      assert (m + PyListRepr(source) + ")")[..|m|] == m;
      m + PyListRepr(source) + ")"
  }

  /** `str()` of a list of strings without quotes or backslashes in them. */
  function PyListRepr(items: seq<string>): string {
    "[" + JoinWith(", ", seq(|items|, i requires 0 <= i < |items| => "'" + items[i] + "'")) + "]"
  }
}
