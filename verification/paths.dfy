/** How a pipeline document's path becomes the name of its build items:
    the `.yml` extension, the configured folder prefix and one leading dot are
    stripped, in that order (server/procBuilder.go, sanitizePath). */
module Paths {

  predicate HasPrefix(s: string, prefix: string) {
    |prefix| <= |s| && s[..|prefix|] == prefix
  }

  predicate HasSuffix(s: string, suffix: string) {
    |suffix| <= |s| && s[|s| - |suffix|..] == suffix
  }

  /** Go's strings.TrimSuffix: drops `suffix` once if `s` ends with it. */
  function TrimSuffix(s: string, suffix: string): (r: string)
    ensures HasSuffix(s, suffix) ==> s == r + suffix
    ensures !HasSuffix(s, suffix) ==> r == s
  {
    if HasSuffix(s, suffix) then s[..|s| - |suffix|] else s
  }

  /** Go's strings.TrimPrefix: drops `prefix` once if `s` starts with it. */
  function TrimPrefix(s: string, prefix: string): (r: string)
    ensures HasPrefix(s, prefix) ==> s == prefix + r
    ensures !HasPrefix(s, prefix) ==> r == s
  {
    if HasPrefix(s, prefix) then s[|prefix|..] else s
  }

  /** The build-item name of the document at `path` when pipelines are configured
      at `configFolder`. */
  function SanitizePath(path: string, configFolder: string): (r: string)
    ensures |r| <= |path|
  {
    var noExt := TrimSuffix(path, ".yml");
    var noFolder := TrimPrefix(noExt, configFolder);
    TrimPrefix(noFolder, ".")
  }

  lemma Regroup(path: string, noExt: string, noFolder: string, front1: string, front2: string, name: string, back: string)
    requires path == noExt + back && noExt == front1 + noFolder && noFolder == front2 + name
    ensures path == (front1 + front2) + name + back
  {
  }

  /** The name is `path` with at most a leading `configFolder`, then at most one `.`,
      removed from the front and at most one `.yml` removed from the back: a
      contiguous piece of the path. */
  lemma SanitizeIsInfix(path: string, configFolder: string)
    ensures exists front, back ::
              && (front == "" || front == configFolder || front == "." || front == configFolder + ".")
              && (back == "" || back == ".yml")
              && (back == ".yml" <==> HasSuffix(path, ".yml"))
              && path == front + SanitizePath(path, configFolder) + back
  {
    var noExt := TrimSuffix(path, ".yml");
    var noFolder := TrimPrefix(noExt, configFolder);
    var name := TrimPrefix(noFolder, ".");
    var back := if HasSuffix(path, ".yml") then ".yml" else "";
    var front1 := if HasPrefix(noExt, configFolder) then configFolder else "";
    var front2 := if HasPrefix(noFolder, ".") then "." else "";
    var front := front1 + front2;
    assert SanitizePath(path, configFolder) == name;
    assert path == noExt + back;
    assert noExt == front1 + noFolder;
    assert noFolder == front2 + name;
    Regroup(path, noExt, noFolder, front1, front2, name, back);
    assert front == "" || front == configFolder || front == "." || front == configFolder + "." by {
      if front1 == "" {
        assert front == front2;
      } else if front2 == "" {
        assert front == configFolder;
      }
    }
    assert back == "" || back == ".yml";
    assert path == front + SanitizePath(path, configFolder) + back;
  }

  /** Stripping undoes adding: a document named `<folder><name>.yml` yields `name`,
      provided `name` itself does not start with a dot. */
  lemma SanitizeInvertsNaming(configFolder: string, name: string)
    requires !HasPrefix(name, ".")
    ensures SanitizePath(configFolder + name + ".yml", configFolder) == name
  {
    var path := configFolder + name + ".yml";
    assert HasSuffix(path, ".yml");
    assert path[..|path| - 4] == configFolder + name;
    assert HasPrefix(configFolder + name, configFolder);
    assert (configFolder + name)[|configFolder|..] == name;
  }

  /** A name with none of the three decorations comes back unchanged. */
  lemma SanitizeKeepsPlainName(path: string, configFolder: string)
    requires !HasSuffix(path, ".yml")
    requires !HasPrefix(path, configFolder)
    requires !HasPrefix(path, ".")
    ensures SanitizePath(path, configFolder) == path
  {
  }

  /** Sanitizing is not idempotent: each application strips another `.yml`. */
  lemma SanitizeNotIdempotent()
    ensures SanitizePath("a.yml.yml", "") == "a.yml"
    ensures SanitizePath(SanitizePath("a.yml.yml", ""), "") == "a"
    ensures SanitizePath(SanitizePath("a.yml.yml", ""), "") != SanitizePath("a.yml.yml", "")
  {
    assert HasSuffix("a.yml.yml", ".yml");
    assert "a.yml.yml"[..5] == "a.yml";
    assert HasPrefix("a.yml", "");
    assert "a.yml"[..1][0] != "."[0];
    assert HasSuffix("a.yml", ".yml");
    assert "a.yml"[..1] == "a";
    assert "a"[..1][0] != "."[0];
  }

  /** The two usual layouts: a single `.drone.yml` file, and a `.drone/` folder of files. */
  lemma SanitizeExamples()
    ensures SanitizePath(".drone.yml", ".drone.yml") == "drone"
    ensures SanitizePath(".drone/build.yml", ".drone/") == "build"
  {
    assert HasSuffix(".drone.yml", ".yml");
    assert ".drone.yml"[..6] == ".drone";
    assert !HasPrefix(".drone", ".drone.yml");
    assert HasPrefix(".drone", ".");
    assert ".drone"[1..] == "drone";
    assert HasSuffix(".drone/build.yml", ".yml");
    assert ".drone/build.yml"[..12] == ".drone/build";
    assert HasPrefix(".drone/build", ".drone/");
    assert ".drone/build"[7..] == "build";
    assert "build"[..1][0] != "."[0];
  }
}
