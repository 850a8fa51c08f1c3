/**
 * src/utils/npm.ts: the memo table of resolved package paths and the two-step synchronous
 * package loader. Module loading and resolution are abstract functions that either succeed
 * or give the message of what they throw.
 */
module Npm {
  import opened Wrappers
  import opened Host
  import opened Errors
  import opened Strings

  /** resolve.sync(name, { basedir: root }). */
  type Resolver = (string, string) -> Result<string, string>

  /** What one call of resolveNpmSync returns, and the cache it leaves behind. */
  datatype Resolution = Resolution(result: Result<string, Error>, cache: map<string, string>)

  /** npmCached[name] is truthy: present and not the empty string. */
  predicate Cached(cache: map<string, string>, name: string) {
    name in cache && cache[name] != ""
  }

  /** One call of resolveNpmSync (npm.ts:25-32); a throwing resolver leaves the cache as it was. */
  function Resolve(cache: map<string, string>, name: string, root: string, resolver: Resolver): (r: Resolution)
    ensures r.result.Success? ==> name in r.cache && r.result.value == r.cache[name]
    ensures forall k :: k != name ==> (k in r.cache <==> k in cache)
    ensures forall k :: k != name && k in cache ==> r.cache[k] == cache[k]
  {
    if Cached(cache, name) then Resolution(Success(cache[name]), cache)
    else
      match resolver(name, root)
      case Success(p) => Resolution(Success(p), cache[name := p])
      case Failure(c) => Resolution(Failure(ResolveFailed(name, c)), cache)
  }

  /** The module-level npmCached table (npm.ts:5). */
  class NpmCache {
    var npmCached: map<string, string>

    constructor()
      ensures npmCached == map[]
    {
      npmCached := map[];
    }

    /** resolveNpmSync (npm.ts:25-32). */
    method ResolveNpmSync(pluginName: string, root: string, resolver: Resolver) returns (r: Result<string, Error>)
      modifies this
      ensures Resolution(r, npmCached) == Resolve(old(npmCached), pluginName, root, resolver)
    {
      if !(pluginName in npmCached && npmCached[pluginName] != "") {
        var resolved := resolver(pluginName, root);
        if resolved.Failure? {
          return Failure(ResolveFailed(pluginName, resolved.error));
        }
        npmCached := npmCached[pluginName := resolved.value];
      }
      r := Success(npmCached[pluginName]);
    }
  }

  /** A cached name is answered from the table, whatever the root and without calling the resolver. */
  lemma CacheHit(cache: map<string, string>, name: string, root: string, resolver: Resolver)
    requires Cached(cache, name)
    ensures Resolve(cache, name, root, resolver) == Resolution(Success(cache[name]), cache)
  {
  }

  /** The first successful call for a name stores what the resolver found under that name only. */
  lemma FirstCallStores(cache: map<string, string>, name: string, root: string, resolver: Resolver)
    requires !Cached(cache, name) && resolver(name, root).Success?
    ensures Resolve(cache, name, root, resolver)
            == Resolution(Success(resolver(name, root).value), cache[name := resolver(name, root).value])
  {
  }

  /** Keyed by name only: a second call with another root returns the path the first call resolved. */
  lemma SecondCallIgnoresRoot(cache: map<string, string>, name: string, root1: string, root2: string, resolver: Resolver)
    requires resolver(name, root1).Success? && resolver(name, root1).value != ""
    ensures var first := Resolve(cache, name, root1, resolver);
            var second := Resolve(first.cache, name, root2, resolver);
            second == Resolution(first.result, first.cache)
  {
  }

  /** getNpmPkgSync (npm.ts:41-55): the project's node_modules first, then the bare name. */
  function GetNpmPkgSync(name: string, searchPath: string, io: Io): (r: Result<ModuleRef, Error>)
    ensures var local := io.require(io.paths.join([searchPath, "node_modules", name]));
            && (local.Success? ==> r == Success(local.value))
            && (local.Failure? && io.require(name).Success? ==> r == Success(io.require(name).value))
            && (local.Failure? && io.require(name).Failure? ==> r == Failure(ImportFailed(name, io.require(name).error)))
  {
    match io.require(io.paths.join([searchPath, "node_modules", name]))
    case Success(m) => Success(m)
    case Failure(_) =>
      match io.require(name)
      case Success(m) => Success(m)
      case Failure(cause) => Failure(ImportFailed(name, cause))
  }

  /** The error raised when both loads fail names the package and carries the second failure's message. */
  lemma ImportFailureNamesPackage(name: string, searchPath: string, io: Io)
    requires GetNpmPkgSync(name, searchPath, io).Failure?
    ensures var e := GetNpmPkgSync(name, searchPath, io).error;
            Contains(Message(e), name) && Contains(Message(e), io.require(name).error)
  {
    var e := GetNpmPkgSync(name, searchPath, io).error;
    var prefix := "无法导入包 ";
    var middle := "，请确保它已安装。错误: ";
    var m := Message(e);
    assert m == prefix + name + middle + io.require(name).error;
    ContainsAt(m, name, |prefix|);
    ContainsAt(m, io.require(name).error, |prefix + name + middle|);
  }
}
