/**
 * The Cloud Foundry provider: `Load` builds the tree
 * `{vcap: {application: …, services: …}}` from the `VCAP_APPLICATION` and
 * `VCAP_SERVICES` environment variables, and `Get` walks it by dotted name.
 */
module CfEnvironment {
  import opened Wrappers
  import opened Values
  import Strings
  import Os

  /** Decodes the JSON text of an environment variable into an object. */
  type TextDecoder = string -> Option<Document>

  const NotInCf := Os.Failure("Not running in CF")
  const BadApplication := Os.Failure("Unable to parse VCAP_APPLICATION")
  const BadServices := Os.Failure("Unable to parse VCAP_SERVICES")

  /**
   * The tree `Load` installs, or the error it returns: the application
   * variable must be present and decode; the services variable is optional
   * but must decode when present.
   */
  function CfTree(env: Os.EnvVars, decode: TextDecoder): (r: Result<Document, Os.Error>)
    ensures "VCAP_APPLICATION" !in env ==> r == Err(NotInCf)
    ensures r.Ok? <==> && "VCAP_APPLICATION" in env && decode(env["VCAP_APPLICATION"]).Some?
                       && ("VCAP_SERVICES" in env ==> decode(env["VCAP_SERVICES"]).Some?)
    ensures r.Ok? ==>
              && r.value.Keys == {KString("vcap")}
              && r.value[KString("vcap")].Map?
              && var vcap := r.value[KString("vcap")].entries;
                 && KString("application") in vcap
                 && vcap[KString("application")] == Map(decode(env["VCAP_APPLICATION"]).value)
                 && (KString("services") in vcap <==> "VCAP_SERVICES" in env)
                 && ("VCAP_SERVICES" in env ==> vcap[KString("services")] == Map(decode(env["VCAP_SERVICES"]).value))
                 && vcap.Keys <= {KString("application"), KString("services")}
  {
    if "VCAP_APPLICATION" !in env then Err(NotInCf)
    else
      match decode(env["VCAP_APPLICATION"])
      case None => Err(BadApplication)
      case Some(application) =>
        var vcap := map[KString("application") := Map(application)];
        if "VCAP_SERVICES" !in env then Ok(map[KString("vcap") := Map(vcap)])
        else
          match decode(env["VCAP_SERVICES"])
          case None => Err(BadServices)
          case Some(services) => Ok(map[KString("vcap") := Map(vcap[KString("services") := Map(services)])])
  }

  class CfEnvironmentProvider {
    /** The tree, or nil before a successful `Load`. */
    var cfEnvironment: Option<Document>

    constructor ()
      ensures cfEnvironment == None
    {
      cfEnvironment := None;
    }

    /** Builds the tree from the environment and installs it only once it is complete. */
    method Load(env: Os.EnvVars, decode: TextDecoder) returns (err: Option<Os.Error>)
      modifies this
      ensures match CfTree(env, decode)
              case Ok(tree) => cfEnvironment == Some(tree) && err == None
              case Err(e) => cfEnvironment == old(cfEnvironment) && err == Some(e)
    {
      var vcap: map<Key, Value> := map[];
      if "VCAP_APPLICATION" !in env {
        return Some(NotInCf);
      }
      var application := decode(env["VCAP_APPLICATION"]);
      if application.None? {
        return Some(BadApplication);
      }
      vcap := vcap[KString("application") := Map(application.value)];
      if "VCAP_SERVICES" in env {
        var services := decode(env["VCAP_SERVICES"]);
        if services.None? {
          return Some(BadServices);
        }
        vcap := vcap[KString("services") := Map(services.value)];
      }
      cfEnvironment := Some(map[KString("vcap") := Map(vcap)]);
      return None;
    }

    /** The tree is built once; there is nothing to refresh and no error to report. */
    method Refresh() returns (err: Option<Os.Error>)
      ensures err == None
    {
      err := None;
    }

    /** The node a dotted name reaches in the tree; nil for every name before a successful load. */
    method Get(name: string) returns (v: Value)
      ensures v == GetDotted(cfEnvironment.GetOr(map[]), name)
    {
      v := GetPath(Map(cfEnvironment.GetOr(map[])), Strings.Split(name, '.'));
    }
  }

  /** The names below the two sections, written segment by segment. */
  lemma SectionNames(name: string)
    ensures '.' !in "vcap" && '.' !in "application" && '.' !in "services"
    ensures "vcap.application." + name == "vcap" + "." + "application" + "." + name
    ensures "vcap.services." + name == "vcap" + "." + "services" + "." + name
  {
  }

  /** `vcap.application.<name>` reads `<name>` inside the decoded application object. */
  lemma ApplicationReachable(env: Os.EnvVars, decode: TextDecoder, name: string)
    requires CfTree(env, decode).Ok?
    ensures GetDotted(CfTree(env, decode).value, "vcap.application." + name)
         == GetDotted(decode(env["VCAP_APPLICATION"]).value, name)
  {
    var tree := CfTree(env, decode).value;
    SectionNames(name);
    GetDottedUnder(tree, "vcap", "application", name);
    LookupShort(Map(tree), "vcap", "application");
    LookupShort(tree[KString("vcap")], "application", "");
  }

  /** `vcap.services.<name>` is found only when `VCAP_SERVICES` is set, and then reads inside it. */
  lemma ServicesReachable(env: Os.EnvVars, decode: TextDecoder, name: string)
    requires CfTree(env, decode).Ok?
    ensures "VCAP_SERVICES" !in env ==> GetDotted(CfTree(env, decode).value, "vcap.services." + name) == Null
    ensures "VCAP_SERVICES" in env ==>
              GetDotted(CfTree(env, decode).value, "vcap.services." + name)
              == GetDotted(decode(env["VCAP_SERVICES"]).value, name)
  {
    var tree := CfTree(env, decode).value;
    SectionNames(name);
    GetDottedUnder(tree, "vcap", "services", name);
    LookupShort(Map(tree), "vcap", "services");
    LookupShort(tree[KString("vcap")], "services", "");
    if "VCAP_SERVICES" !in env {
      LookupMissPersists(Null, [], Strings.Split(name, '.'));
    }
  }
}
