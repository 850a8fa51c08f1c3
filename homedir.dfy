/**
 * src/utils/index.ts, getUserHomeDir and its inner homedir: the user's home directory,
 * taken from os.homedir() or else from the environment by platform.
 *
 * An unset environment variable and an empty one behave alike in every `||` and `?:` of
 * the source, so both read as "" here.
 */
module HomeDir {
  import opened Wrappers
  import opened Host

  /** process.env[name], "" when unset. */
  function Var(vars: map<string, string>, name: string): string {
    if name in vars then vars[name] else ""
  }

  /** a || b on strings. */
  function OrText(a: string, b: string): (r: string)
    ensures a != "" ==> r == a
    ensures a == "" ==> r == b
  {
    if a != "" then a else b
  }

  const USER_VARS: seq<string> := ["LOGNAME", "USER", "LNAME", "USERNAME"]

  /** The first non-empty of the variables in `names`, "" if there is none. */
  function FirstSet(vars: map<string, string>, names: seq<string>): (r: string)
    ensures r == "" <==> forall i :: 0 <= i < |names| ==> Var(vars, names[i]) == ""
    ensures r != "" ==> exists i :: 0 <= i < |names| && r == Var(vars, names[i])
                                    && forall j :: 0 <= j < i ==> Var(vars, names[j]) == ""
  {
    if names == [] then ""
    else
      var rest := FirstSet(vars, names[1..]);
      if Var(vars, names[0]) != "" then Var(vars, names[0])
      else
        assert forall i :: 1 <= i < |names| ==> names[i] == names[1..][i - 1];
        if rest != "" then
          var i :| 0 <= i < |names[1..]| && rest == Var(vars, names[1..][i])
                   && forall j :: 0 <= j < i ==> Var(vars, names[1..][j]) == "";
          assert forall j :: 0 <= j < i + 1 ==> Var(vars, names[j]) == "" by {
            forall j | 0 <= j < i + 1 ensures Var(vars, names[j]) == "" {
              if j > 0 { assert names[j] == names[1..][j - 1]; }
            }
          }
          assert rest == Var(vars, names[i + 1]);
          rest
        else rest
  }

  /** env.LOGNAME || env.USER || env.LNAME || env.USERNAME (utils/index.ts:65). */
  function User(vars: map<string, string>): string {
    FirstSet(vars, USER_VARS)
  }

  /** The four variables are consulted in order, the first non-empty one winning. */
  lemma UserOrder(vars: map<string, string>)
    ensures Var(vars, "LOGNAME") != "" ==> User(vars) == Var(vars, "LOGNAME")
    ensures Var(vars, "LOGNAME") == "" && Var(vars, "USER") != "" ==> User(vars) == Var(vars, "USER")
    ensures Var(vars, "LOGNAME") == "" && Var(vars, "USER") == "" && Var(vars, "LNAME") != "" ==>
              User(vars) == Var(vars, "LNAME")
    ensures Var(vars, "LOGNAME") == "" && Var(vars, "USER") == "" && Var(vars, "LNAME") == "" ==>
              User(vars) == Var(vars, "USERNAME")
  {
    var rest := ["USER", "LNAME", "USERNAME"];
    assert USER_VARS == ["LOGNAME"] + rest;
    FirstSetCons(vars, "LOGNAME", rest);
    FirstSetCons(vars, "USER", ["LNAME", "USERNAME"]);
    FirstSetCons(vars, "LNAME", ["USERNAME"]);
    FirstSetCons(vars, "USERNAME", []);
  }

  /** One step of the chain: the head variable, or else the rest. */
  lemma FirstSetCons(vars: map<string, string>, name: string, rest: seq<string>)
    ensures FirstSet(vars, [name] + rest) == OrText(Var(vars, name), FirstSet(vars, rest))
  {
    assert ([name] + rest)[1..] == rest;
  }

  /** The environment fallback homedir() (utils/index.ts:62-83): outside Windows a non-empty HOME always wins. */
  function EnvHomeDir(platform: OsPlatform, vars: map<string, string>, uid: Option<int>): (r: string)
    ensures platform != Win32 && Var(vars, "HOME") != "" ==> r == Var(vars, "HOME")
    ensures platform.OtherOs? ==> r == Var(vars, "HOME")
  {
    var home := Var(vars, "HOME");
    var user := User(vars);
    match platform
    case Win32 =>
      OrText(OrText(Var(vars, "USERPROFILE"), Var(vars, "HOMEDRIVE") + Var(vars, "HOMEPATH")), OrText(home, ""))
    case Darwin => OrText(home, if user != "" then "/Users/" + user else "")
    case Linux => OrText(home, if uid == Some(0) then "/root" else if user != "" then "/home/" + user else "")
    case OtherOs(_) => OrText(home, "")
  }

  /** getUserHomeDir (utils/index.ts:57-85): os.homedir() whenever it is a function. */
  function GetUserHomeDir(env: Env): (r: string)
    ensures env.osHomedir.Some? ==> r == env.osHomedir.value
    ensures env.osHomedir.None? ==> r == EnvHomeDir(env.platform, env.vars, env.uid)
  {
    if env.osHomedir.Some? then env.osHomedir.value else EnvHomeDir(env.platform, env.vars, env.uid)
  }

  /** On Windows the order is USERPROFILE, then HOMEDRIVE followed by HOMEPATH, then HOME. */
  lemma WindowsOrder(vars: map<string, string>, uid: Option<int>)
    ensures var r := EnvHomeDir(Win32, vars, uid);
            && (Var(vars, "USERPROFILE") != "" ==> r == Var(vars, "USERPROFILE"))
            && (Var(vars, "USERPROFILE") == "" && Var(vars, "HOMEDRIVE") + Var(vars, "HOMEPATH") != "" ==>
                  r == Var(vars, "HOMEDRIVE") + Var(vars, "HOMEPATH"))
            && (Var(vars, "USERPROFILE") == "" && Var(vars, "HOMEDRIVE") + Var(vars, "HOMEPATH") == "" ==>
                  r == Var(vars, "HOME"))
  {
  }

  /** On Linux with no HOME the superuser gets /root whatever the user variables say. */
  lemma LinuxRootWithoutHome(vars: map<string, string>)
    requires Var(vars, "HOME") == ""
    ensures EnvHomeDir(Linux, vars, Some(0)) == "/root"
  {
  }

  /** The fallback is empty exactly when no variable it consults supplies anything. */
  lemma EnvHomeDirEmpty(platform: OsPlatform, vars: map<string, string>, uid: Option<int>)
    ensures EnvHomeDir(platform, vars, uid) == "" <==>
      match platform
      case Win32 =>
        Var(vars, "USERPROFILE") == "" && Var(vars, "HOMEDRIVE") == "" && Var(vars, "HOMEPATH") == ""
        && Var(vars, "HOME") == ""
      case Darwin => Var(vars, "HOME") == "" && User(vars) == ""
      case Linux => Var(vars, "HOME") == "" && uid != Some(0) && User(vars) == ""
      case OtherOs(_) => Var(vars, "HOME") == ""
  {
  }

  /** With no HOME, macOS derives the directory from the user name; the uid plays no part. */
  lemma DarwinUserHome(vars: map<string, string>, uid: Option<int>)
    requires Var(vars, "HOME") == "" && User(vars) != ""
    ensures EnvHomeDir(Darwin, vars, uid) == "/Users/" + User(vars)
  {
  }

  /** With no HOME, Linux derives the directory from the user name unless the uid is 0. */
  lemma LinuxUserHome(vars: map<string, string>, uid: Option<int>)
    requires Var(vars, "HOME") == "" && User(vars) != "" && uid != Some(0)
    ensures EnvHomeDir(Linux, vars, uid) == "/home/" + User(vars)
  {
  }
}
