/** The `database_url` validator `Settings.expand_sqlite_path`
    (backend/app/core/config.py:39-46): a SQLite URL with a relative path is made absolute
    against the working directory. The working directory `os.getcwd()` is the parameter
    `cwd`, and `pathlib`'s path joining is written out below. */
module Config {
  import opened Base
  import opened Text

  // ---------------------------------------------------------------- pathlib

  /** `s.split(c)`. */
  function SplitOn(s: string, c: char): (parts: seq<string>)
    ensures |parts| >= 1
    ensures forall i, j :: 0 <= i < |parts| && 0 <= j < |parts[i]| ==> parts[i][j] != c
  {
    if s == [] then [""]
    else
      var rest := SplitOn(s[1..], c);
      if s[0] == c then [""] + rest else [[s[0]] + rest[0]] + rest[1..]
  }

  /** The components `pathlib` keeps: empty components and `.` are dropped, `..` is kept. */
  function KeepComponents(parts: seq<string>): (r: seq<string>)
    ensures forall i :: 0 <= i < |r| ==> r[i] != "" && r[i] != "." && r[i] in parts
  {
    if parts == [] then []
    else
      var rest := KeepComponents(parts[1..]);
      if parts[0] == "" || parts[0] == "." then rest else [parts[0]] + rest
  }

  /** A string without the separator splits into itself. */
  lemma {:induction false} SplitWithoutSeparator(s: string, c: char)
    requires forall j :: 0 <= j < |s| ==> s[j] != c
    ensures SplitOn(s, c) == [s]
  {
    if s != [] {
      SplitWithoutSeparator(s[1..], c);
      assert [s[0]] + s[1..] == s;
    }
  }

  function PathParts(p: string): seq<string> {
    KeepComponents(SplitOn(p, '/'))
  }

  /** `str(Path(cwd) / path)` for an absolute `cwd` and a relative `path`. */
  function JoinPath(cwd: string, path: string): (r: string)
    ensures |r| >= 1 && r[0] == '/'
  {
    "/" + Join("/", PathParts(cwd) + PathParts(path))
  }

  // ---------------------------------------------------------------- the validator

  /** `expand_sqlite_path(v)` run in the working directory `cwd`. */
  function ExpandSqlitePath(v: string, cwd: string): (r: string)
    ensures r == v || StartsWith(r, "sqlite:////")
  {
    var sep := FindFrom(v, "///", 0);
    if StartsWith(v, "sqlite") && sep.Some? && !StartsWith(v, "sqlite:////") then
      var path := v[sep.value + 3..];
      if !StartsWith(path, "/") then
        var r := "sqlite:///" + JoinPath(cwd, path);
        assert r[..11] == "sqlite:////";
        r
      else v
    else v
  }

  /** A URL that is not a SQLite URL, has no `///`, or already names an absolute path
      after `sqlite:////`, is returned unchanged. */
  lemma OtherUrlsUnchanged(v: string, cwd: string)
    requires !StartsWith(v, "sqlite") || !Contains(v, "///") || StartsWith(v, "sqlite:////")
    ensures ExpandSqlitePath(v, cwd) == v
  {
  }

  /** The path is what follows the first `///`: a relative one is joined to the working
      directory, an absolute one is left unchanged. */
  lemma PathAfterFirstSeparator(v: string, cwd: string, i: nat)
    requires StartsWith(v, "sqlite") && !StartsWith(v, "sqlite:////")
    requires OccursAt(v, "///", i) && forall j :: 0 <= j < i ==> !OccursAt(v, "///", j)
    ensures !StartsWith(v[i + 3..], "/") ==> ExpandSqlitePath(v, cwd) == "sqlite:///" + JoinPath(cwd, v[i + 3..])
    ensures StartsWith(v[i + 3..], "/") ==> ExpandSqlitePath(v, cwd) == v
  {
    FindFromFirst(v, "///", 0, i);
  }

  /** Expanding twice is expanding once: a rewritten URL starts with `sqlite:////`. */
  lemma ExpandIdempotent(v: string, cwd: string)
    ensures ExpandSqlitePath(ExpandSqlitePath(v, cwd), cwd) == ExpandSqlitePath(v, cwd)
  {
  }

  /** The common form `sqlite:///path`: a relative path is joined to the working
      directory. */
  lemma RelativeSqliteUrl(path: string, cwd: string)
    requires !StartsWith(path, "/")
    ensures ExpandSqlitePath("sqlite:///" + path, cwd) == "sqlite:///" + JoinPath(cwd, path)
  {
    var v := "sqlite:///" + path;
    assert v[..6] == "sqlite";
    assert v[7..10] == "///";
    assert v[10..] == path;
    assert !StartsWith(v, "sqlite:////") by {
      if |path| > 0 {
        assert v[10] == path[0];
        assert path[..1] != "/";
      }
    }
    forall j | 0 <= j < 7
      ensures !OccursAt(v, "///", j)
    {
      assert v[j..j + 3][0] == v[j] != '/';
    }
    PathAfterFirstSeparator(v, cwd, 7);
  }

  /** A single plain file name joined to `/app`. */
  lemma JoinToApp(name: string)
    requires name != "" && name != "." && forall j :: 0 <= j < |name| ==> name[j] != '/'
    ensures JoinPath("/app", name) == "/app/" + name
  {
    SplitWithoutSeparator("app", '/');
    assert SplitOn("/app", '/') == ["", "app"];
    assert ["", "app"][1..] == ["app"] && ["app"][1..] == [];
    assert PathParts("/app") == ["app"];
    SplitWithoutSeparator(name, '/');
    assert [name][1..] == [];
    assert PathParts(name) == [name];
    var parts := PathParts("/app") + PathParts(name);
    assert parts == ["app", name] && parts[1..] == [name];
    assert Join("/", parts) == "app" + "/" + name;
  }

  /** A file name without `/` under `/app` becomes an absolute URL. */
  lemma AppUrl(name: string)
    requires name != "" && name != "." && forall j :: 0 <= j < |name| ==> name[j] != '/'
    ensures ExpandSqlitePath("sqlite:///" + name, "/app") == "sqlite:////app/" + name
  {
    assert name[..1][0] == name[0];
    RelativeSqliteUrl(name, "/app");
    JoinToApp(name);
    assert "sqlite:///" + ("/app/" + name) == "sqlite:////app/" + name;
  }

  /** A leading `./` is a dropped component: `./name` has the single component `name`. */
  lemma {:induction false} DotRelativeParts(name: string)
    requires name != "" && name != "." && forall j :: 0 <= j < |name| ==> name[j] != '/'
    ensures PathParts("./" + name) == [name]
  {
    SplitWithoutSeparator(name, '/');
    var p := "./" + name;
    assert p[1..] == "/" + name;
    assert ("/" + name)[1..] == name;
    assert SplitOn("/" + name, '/') == [""] + [name];
    assert SplitOn(p, '/') == [['.'] + ""] + [name];
    assert ['.'] + "" == ".";
    assert KeepComponents([name]) == [name] by {
      assert [name][1..] == [];
    }
    assert [".", name][1..] == [name];
  }

  /** A plain file name written `./name` under `/app` becomes the same absolute URL as
      `name`: the `.` component is dropped. */
  lemma DotAppUrl(name: string)
    requires name != "" && name != "." && forall j :: 0 <= j < |name| ==> name[j] != '/'
    ensures ExpandSqlitePath("sqlite:///" + ("./" + name), "/app") == "sqlite:////app/" + name
  {
    assert ("./" + name)[..1] == ".";
    RelativeSqliteUrl("./" + name, "/app");
    DotRelativeParts(name);
    JoinToApp(name);
    assert PathParts(name) == [name] by {
      SplitWithoutSeparator(name, '/');
      assert [name][1..] == [];
    }
    assert PathParts("./" + name) == PathParts(name);
    assert JoinPath("/app", "./" + name) == JoinPath("/app", name);
    assert "sqlite:///" + ("/app/" + name) == "sqlite:////app/" + name;
  }

  lemma DefaultName(name: string)
    requires name == "portfolio.db"
    ensures name != "" && name != "." && forall j :: 0 <= j < |name| ==> name[j] != '/'
    ensures "sqlite:////app/" + name == "sqlite:////app/portfolio.db"
  {
  }

  /** The default URL `sqlite:///./portfolio.db` (backend/app/core/config.py:14), run in
      `/app`, points at `/app/portfolio.db`. */
  lemma DefaultUrlExample(name: string)
    requires name == "portfolio.db"
    ensures ExpandSqlitePath("sqlite:///" + ("./" + name), "/app") == "sqlite:////app/portfolio.db"
  {
    DefaultName(name);
    DotAppUrl(name);
  }

  /** The in-memory URL `sqlite:///:memory:` is treated as a relative file name too. */
  lemma MemoryUrlExample(name: string)
    requires name == ":memory:"
    ensures ExpandSqlitePath("sqlite:///" + name, "/app") == "sqlite:////app/:memory:"
  {
    AppUrl(name);
  }
}
