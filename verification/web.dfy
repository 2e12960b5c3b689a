/**
 * The service model of `src/web.rs`: the service-type tag and its parser,
 * the default service, and `create_html`, which makes the parent directory of
 * an output file and then writes the file.
 */
module Web {
  import opened Wrappers
  import opened Text

  datatype ServiceType = Ping | Port | Http

  /** The lower-case spelling the parser accepts for each tag. */
  function Name(t: ServiceType): string {
    match t
    case Ping => "ping"
    case Port => "port"
    case Http => "http"
  }

  const UnknownTypePrefix := "unknown service type: "

  /** `ServiceType::from_str`: lowercase the input, then match the three
      names; anything else is an error naming the lowercased input. */
  function ParseServiceType(s: string): (r: Result<ServiceType, string>)
    ensures r.Ok? <==> ToLowerAscii(s) in {"ping", "port", "http"}
    ensures r.Ok? ==> Name(r.value) == ToLowerAscii(s)
    ensures r.Err? ==> r.error == UnknownTypePrefix + ToLowerAscii(s)
  {
    match ToLowerAscii(s)
    case "ping" => Ok(Ping)
    case "port" => Ok(Port)
    case "http" => Ok(Http)
    case other => Err(UnknownTypePrefix + other)
  }

  /** Every tag parses back from its name. */
  lemma {:induction false} ParseName(t: ServiceType)
    ensures ParseServiceType(Name(t)) == Ok(t)
  {
    ToLowerFixed(Name(t));
  }

  /** Parsing ignores letter case: inputs that lowercase alike parse alike,
      and lowercasing the input first changes nothing. */
  lemma {:induction false} ParseIgnoresCase(a: string, b: string)
    requires ToLowerAscii(a) == ToLowerAscii(b)
    ensures ParseServiceType(a) == ParseServiceType(b)
    ensures ParseServiceType(ToLowerAscii(a)) == ParseServiceType(a)
  {
    ToLowerIdempotent(a);
  }

  /** A tag's name parses in any mix of letter cases. */
  lemma {:induction false} ParseAnyCase(t: ServiceType, s: string)
    requires |s| == |Name(t)|
    requires forall i :: 0 <= i < |s| ==> s[i] == Name(t)[i] || s[i] as int == Name(t)[i] as int - 32
    ensures ParseServiceType(s) == Ok(t)
  {
    assert forall i :: 0 <= i < |s| ==> ToLowerAscii(s)[i] == Name(t)[i];
    assert ToLowerAscii(s) == Name(t);
  }

  /** The upper-case spellings are accepted too. */
  lemma ParseUpperCase()
    ensures ParseServiceType("PING") == Ok(Ping)
    ensures ParseServiceType("Port") == Ok(Port)
    ensures ParseServiceType("hTTp") == Ok(Http)
  {
    assert forall i | 0 <= i < 4 :: ToLowerAscii("PING")[i] == "ping"[i];
    assert ToLowerAscii("PING") == "ping";
    assert forall i | 0 <= i < 4 :: ToLowerAscii("Port")[i] == "port"[i];
    assert ToLowerAscii("Port") == "port";
    assert forall i | 0 <= i < 4 :: ToLowerAscii("hTTp")[i] == "http"[i];
    assert ToLowerAscii("hTTp") == "http";
  }

  newtype U16 = x: int | 0 <= x < 0x1_0000

  datatype Service = Service(name: string, svcType: ServiceType, host: string,
                             up: bool, port: Option<U16>, ssl: bool)

  /** `Service::default`. */
  function DefaultService(): (s: Service)
    ensures s.name == "" && s.host == "" && s.svcType == Ping
    ensures !s.up && s.port == None && s.ssl
  {
    Service("", Ping, "", false, None, true)
  }

  /** The directory `create_html` asks for: everything before the last `/`
      of the file name, or nothing when there is no `/`. */
  function ParentToCreate(fileName: string): (r: Option<string>)
    ensures r.None? <==> '/' !in fileName
    ensures r.Some? ==> |r.value| < |fileName|
                        && fileName == r.value + "/" + fileName[|r.value| + 1..]
                        && '/' !in fileName[|r.value| + 1..]
  {
    match RFind(fileName, '/')
    case None => None
    case Some(i) =>
      assert fileName == fileName[..i] + "/" + fileName[i + 1..];
      Some(fileName[..i])
  }

  /** The directories `create_dir_all(dir)` makes: each non-empty prefix of
      `dir` that ends before a `/`, and `dir` itself, and nothing else. The
      root and "" are never made. */
  function Chain(dir: string): (c: set<string>)
    ensures dir != [] ==> dir in c
    ensures forall a :: a in c ==> a != [] && a <= dir
    ensures forall i :: 0 < i < |dir| && dir[i] == '/' ==> dir[..i] in c
    ensures forall a :: a in c ==> a == dir || (|a| < |dir| && dir[|a|] == '/')
  {
    assert dir[..|dir|] == dir;
    set i | 0 < i <= |dir| && (i == |dir| || dir[i] == '/') :: dir[..i]
  }

  /** Which step of `create_html` failed. */
  datatype HtmlError = DirectoryFailed | CreateFailed | WriteFailed

  /**
   * The part of the file system `create_html` touches: file contents by
   * path, the set of existing directories, the paths this process may not
   * create, and the paths whose device rejects writes.
   */
  class FileSystem {
    var files: map<string, string>
    var dirs: set<string>
    const readOnly: set<string>
    const failingWrites: set<string>

    /** A path is a file or a directory, never both. */
    ghost predicate Valid()
      reads this
    {
      files.Keys !! dirs
    }

    constructor (files: map<string, string>, dirs: set<string>,
                 readOnly: set<string>, failingWrites: set<string>)
      requires files.Keys !! dirs
      ensures Valid()
      ensures this.files == files && this.dirs == dirs
      ensures this.readOnly == readOnly && this.failingWrites == failingWrites
    {
      this.files := files;
      this.dirs := dirs;
      this.readOnly := readOnly;
      this.failingWrites := failingWrites;
    }

    /** `create_dir_all(dir)` succeeds when no directory on the way is an
        existing file and every one still missing may be created. */
    predicate CanCreateDirs(dir: string)
      reads this
    {
      forall a :: a in Chain(dir) ==> a !in files && (a in dirs || a !in readOnly)
    }

    /** `create_dir_all`; it succeeds on "" without doing anything. */
    method CreateDirAll(dir: string) returns (ok: bool)
      requires Valid()
      modifies this`dirs
      ensures Valid()
      ensures ok == old(CanCreateDirs(dir))
      ensures dirs == if ok then old(dirs) + Chain(dir) else old(dirs)
    {
      ok := forall a :: a in Chain(dir) ==> a !in files && (a in dirs || a !in readOnly);
      if ok {
        dirs := dirs + Chain(dir);
      }
    }

    /** The directory a relative name is created in (the working directory)
        or the directory named before its last `/`; "" is the root. */
    predicate ParentExists(path: string)
      reads this
    {
      match ParentToCreate(path)
      case None => true
      case Some(d) => d == [] || d in dirs
    }

    /** `File::create(path)` succeeds on a non-empty path that is not a
        directory, may be written by this process and has a parent. */
    predicate CanCreateFile(path: string)
      reads this
    {
      path != [] && path !in dirs && path !in readOnly && ParentExists(path)
    }

    /** `File::create`: creates the file, or truncates it if it exists. */
    method CreateFile(path: string) returns (ok: bool)
      requires Valid()
      modifies this`files
      ensures Valid()
      ensures ok == CanCreateFile(path)
      ensures files == if ok then old(files)[path := ""] else old(files)
    {
      ok := path != [] && path !in dirs && path !in readOnly && ParentExists(path);
      if ok {
        files := files[path := ""];
      }
    }

    /** `write_all` on a freshly created file. */
    method WriteAll(path: string, contents: string) returns (ok: bool)
      requires Valid() && path in files
      modifies this`files
      ensures Valid()
      ensures ok == (path !in failingWrites)
      ensures files == if ok then old(files)[path := contents] else old(files)
    {
      ok := path !in failingWrites;
      if ok {
        files := files[path := contents];
      }
    }

    /** The directory step of `create_html` would succeed. */
    predicate DirsReady(fileName: string)
      reads this
    {
      match ParentToCreate(fileName)
      case None => true
      case Some(d) => CanCreateDirs(d)
    }

    /** `create_html`: make the parent directories, then create the file,
        then write the contents; the first failure ends it. */
    method CreateHtml(fileName: string, contents: string) returns (r: Result<(), HtmlError>)
      requires Valid()
      modifies this`files, this`dirs
      ensures Valid()
      ensures r == Err(DirectoryFailed) <==> !old(DirsReady(fileName))
      ensures r == Err(DirectoryFailed) ==> files == old(files) && dirs == old(dirs)
      ensures r != Err(DirectoryFailed) ==>
                dirs == old(dirs) + (match ParentToCreate(fileName)
                                     case None => {}
                                     case Some(d) => Chain(d))
      ensures r == Err(CreateFailed) <==> old(DirsReady(fileName)) && !CanCreateFile(fileName)
      ensures r == Err(CreateFailed) ==> files == old(files)
      ensures r == Err(CreateFailed) ==> fileName == [] || fileName in dirs || fileName in readOnly
      ensures r == Err(WriteFailed) <==>
                old(DirsReady(fileName)) && CanCreateFile(fileName) && fileName in failingWrites
      ensures r == Err(WriteFailed) ==> files == old(files)[fileName := ""]
      ensures r.Ok? ==> files == old(files)[fileName := contents]
    {
      match ParentToCreate(fileName) {
        case Some(dir) =>
          var ok := CreateDirAll(dir);
          if !ok {
            return Err(DirectoryFailed);
          }
          assert dir != [] ==> dir in dirs;
        case None =>
      }
      var created := CreateFile(fileName);
      if !created {
        return Err(CreateFailed);
      }
      var written := WriteAll(fileName, contents);
      if !written {
        return Err(WriteFailed);
      }
      return Ok(());
    }
  }
}
