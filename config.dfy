/**
 * The backend address of `config.ts`: a base URL chosen by platform, and
 * `api(path)`, which joins a path onto it.
 */
module Config {

  const LocalHost: string := "http://192.168.1.79:8080"
  const AndroidEmulator: string := "http://192.168.1.79:8080"
  const DefaultLan: string := "10.41.81.30"
  const Lan: string := "http://" + DefaultLan + ":8080"

  /**
   * `API_BASE` for the platform `os` (`Platform.OS`) and whether the app runs
   * on a physical device: the emulator address on an Android emulator, the
   * local address on the web, the LAN address otherwise.
   */
  function ApiBase(os: string, isDevice: bool): (base: string)
    ensures base in {AndroidEmulator, LocalHost, Lan}
    ensures os != "android" && os != "web" ==> base == Lan
  {
    if os == "android" && !isDevice then AndroidEmulator
    else if os == "web" then LocalHost
    else Lan
  }

  /** `api(path)` on the base `base`. */
  function Api(base: string, path: string): (url: string)
    ensures |url| >= |base| && url[..|base|] == base
    ensures path == "" <==> url == base
  {
    if path == "" then base
    else if path[0] == '/' then base + path
    else base + "/" + path
  }

  /**
   * A non-empty path is joined with exactly one `/` between base and path,
   * whether or not the path brings its own.
   */
  lemma ApiJoinsWithOneSlash(base: string, path: string)
    requires path != ""
    ensures var url := Api(base, path);
      url[|base|] == '/' && url[|base| + 1..] == (if path[0] == '/' then path[1..] else path)
  {
    var url := Api(base, path);
    if path[0] == '/' {
      assert url[|base|..] == path;
    } else {
      assert url[|base|..] == "/" + path;
    }
  }

  /** `api("x")` and `api("/x")` are the same address. */
  lemma ApiSlashInsensitive(base: string, x: string)
    requires x != "" && x[0] != '/'
    ensures Api(base, x) == Api(base, "/" + x)
  {
    assert base + "/" + x == base + ("/" + x);
  }

  /** Every address the app fetches is an HTTP address on port 8080 of the chosen host. */
  lemma ApiBaseIsHttp(os: string, isDevice: bool)
    ensures var base := ApiBase(os, isDevice);
      |base| > 12 && base[..7] == "http://" && base[|base| - 5..] == ":8080"
  {
  }
}
