/** How a backup location travels: the controller writes it into a secret, reads it back from there for snapshots and
    cleanup, and the executor pod rebuilds it from the secret's mounted files. */
module Credentials {
  import opened Wrappers

  datatype S3Config = S3Config(
    endpoint: string, accessKeyID: string, secretAccessKey: string, region: string, disableSSL: bool, storageClass: string)

  datatype AzureConfig = AzureConfig(storageAccountName: string, storageAccountKey: string)

  datatype GoogleConfig = GoogleConfig(projectID: string, accountKey: string)

  datatype Location = Location(
    kind: string,
    path: string,
    s3: Option<S3Config>,
    azure: Option<AzureConfig>,
    google: Option<GoogleConfig>,
    encryptionKey: string,
    secretConfig: string,
    sync: bool,
    repositoryPassword: string)

  type Data = map<string, string>

  const EMPTY_LOCATION := Location("", "", None, None, None, "", "", false, "")

  function FormatBool(b: bool): string {
    if b then "true" else "false"
  }

  /** `strconv.ParseBool`. */
  function ParseBool(s: string): Option<bool> {
    if s in {"1", "t", "T", "TRUE", "true", "True"} then Some(true)
    else if s in {"0", "f", "F", "FALSE", "false", "False"} then Some(false)
    else None
  }

  // ---------------------------------------------------------------- the secret

  /** The data of the secret; none for a type that is not supported or whose configuration is missing, where the
      controller fails. */
  function SecretData(l: Location): Option<Data> {
    if l.kind == "s3" && l.s3.Some? then
      Some(map[
        "endpoint" := l.s3.value.endpoint,
        "accessKey" := l.s3.value.accessKeyID,
        "secretAccessKey" := l.s3.value.secretAccessKey,
        "region" := l.s3.value.region,
        "path" := l.path,
        "type" := l.kind,
        "password" := l.repositoryPassword,
        "disablessl" := FormatBool(l.s3.value.disableSSL)])
    else if l.kind == "google" && l.google.Some? then
      Some(map[
        "type" := l.kind,
        "password" := l.repositoryPassword,
        "accountkey" := l.google.value.accountKey,
        "projectid" := l.google.value.projectID,
        "path" := l.path])
    else if l.kind == "azure" && l.azure.Some? then
      Some(map[
        "type" := l.kind,
        "password" := l.repositoryPassword,
        "path" := l.path,
        "storageaccountname" := l.azure.value.storageAccountName,
        "storageaccountkey" := l.azure.value.storageAccountKey])
    else None
  }

  /** A provider that is supported, with its own part of the configuration. */
  predicate Supported(l: Location) {
    (l.kind == "s3" && l.s3.Some?) || (l.kind == "google" && l.google.Some?) || (l.kind == "azure" && l.azure.Some?)
  }

  lemma SupportedIsWritten(l: Location)
    ensures SecretData(l).Some? <==> Supported(l)
  {
  }

  /** What happens to a request to create a secret, apart from finding it there already. */
  datatype CreateFate = CreateAnswered | CreateFailed(applied: bool)

  /** The secrets of the cluster, by namespace and name. */
  class Secrets {
    var stored: map<(string, string), Data>

    constructor ()
      ensures stored == map[]
    {
      stored := map[];
    }

    /** `createJobSecret`: a secret that is there already is left as it is, and that is no error. */
    method CreateJobSecret(name: string, namespace: string, data: Data, fate: CreateFate) returns (failed: bool)
      modifies this
      ensures failed <==> fate.CreateFailed?
      ensures stored == if (namespace, name) in old(stored) || fate == CreateFailed(false) then old(stored)
                        else old(stored)[(namespace, name) := data]
    {
      if (namespace, name) !in stored && fate != CreateFailed(false) {
        stored := stored[(namespace, name) := data];
      }
      return fate.CreateFailed?;
    }

    /** `CreateCredentialsSecret`, with what reading the backup location answers. */
    method CreateCredentialsSecret(name: string, namespace: string, location: Result<Location>, fate: CreateFate)
      returns (failed: bool)
      modifies this
      ensures failed <==> location.Err? || !Supported(location.value) || fate.CreateFailed?
      // After a nil the secret is there: this location's if there was none, and otherwise what it was.
      ensures !failed ==> (namespace, name) in stored
      ensures !failed && (namespace, name) !in old(stored) ==>
                stored[(namespace, name)] == SecretData(location.value).value
      ensures forall k :: k in old(stored) ==> k in stored && stored[k] == old(stored[k])
      // Nothing else appears, and after an error only the secret whose creation was not answered.
      ensures forall k :: k in stored && k !in old(stored) ==>
                k == (namespace, name) && location.Ok? && SecretData(location.value) == Some(stored[k])
                && (failed ==> fate == CreateFailed(true))
    {
      if location.Ok? {
        SupportedIsWritten(location.value);
      }
      if location.Err? || SecretData(location.value).None? {
        return true;
      }
      failed := CreateJobSecret(name, namespace, SecretData(location.value).value, fate);
    }
  }

  // ---------------------------------------------------------------- read back by the controller

  function Get(data: Data, key: string): string {
    if key in data then data[key] else ""
  }

  /** `getBackuplocationFromSecret`: a key that is missing reads as empty. */
  function FromSecret(data: Data): Location {
    var l := EMPTY_LOCATION.(path := Get(data, "path"));
    var kind := Get(data, "type");
    if kind == "s3" then
      l.(kind := "s3",
         s3 := Some(S3Config(Get(data, "endpoint"), Get(data, "accessKey"), Get(data, "secretAccessKey"), Get(data, "region"),
                             Get(data, "disablessl") == "true", "")))
    else if kind == "azure" then
      l.(kind := "azure", azure := Some(AzureConfig(Get(data, "storageaccountname"), Get(data, "storageaccountkey"))))
    else if kind == "google" then
      l.(kind := "google", google := Some(GoogleConfig(Get(data, "projectid"), Get(data, "accountkey"))))
    else l
  }

  /** What of a location the secret carries to its readers: the type, the path and that provider's credentials. */
  function Carried(l: Location): Location {
    EMPTY_LOCATION.(
      kind := l.kind,
      path := l.path,
      s3 := if l.kind == "s3" && l.s3.Some? then Some(l.s3.value.(storageClass := "")) else None,
      azure := if l.kind == "azure" then l.azure else None,
      google := if l.kind == "google" then l.google else None)
  }

  lemma ControllerReadsItBack(l: Location)
    requires Supported(l)
    ensures FromSecret(SecretData(l).value) == Carried(l)
  {
  }

  /** Nothing is lost exactly when the location sets none of the fields the secret has no room for. */
  lemma LosslessWhenNothingElseIsSet(l: Location)
    requires Supported(l)
    ensures FromSecret(SecretData(l).value) == l <==>
            && l.repositoryPassword == "" && l.encryptionKey == "" && l.secretConfig == "" && !l.sync
            && (l.s3.Some? ==> l.kind == "s3" && l.s3.value.storageClass == "")
            && (l.azure.Some? ==> l.kind == "azure")
            && (l.google.Some? ==> l.kind == "google")
  {
    ControllerReadsItBack(l);
    hide FromSecret;
  }

  lemma FormatBoolIsInjective(a: bool, b: bool)
    ensures FormatBool(a) == FormatBool(b) <==> a == b
  {
    assert FormatBool(true)[0] != FormatBool(false)[0];
  }

  /** A secret kept from an earlier version of the location is what this one would write if and only if the two agree in
      all that the secret carries and in the repository password; its readers then see this location, and otherwise,
      unless only the password differs, the earlier one. */
  lemma StaleSecretIsCurrent(earlier: Location, l: Location)
    requires Supported(earlier) && Supported(l)
    ensures SecretData(earlier) == SecretData(l) <==> Carried(earlier) == Carried(l) && earlier.repositoryPassword == l.repositoryPassword
    ensures FromSecret(SecretData(earlier).value) == Carried(l) <==> Carried(earlier) == Carried(l)
  {
    ControllerReadsItBack(earlier);
    ControllerReadsItBack(l);
    if earlier.s3.Some? && l.s3.Some? {
      FormatBoolIsInjective(earlier.s3.value.disableSSL, l.s3.value.disableSSL);
    }
    assert Get(SecretData(earlier).value, "password") == earlier.repositoryPassword;
    assert Get(SecretData(l).value, "password") == l.repositoryPassword;
    hide FromSecret, FormatBool;
  }

  // ---------------------------------------------------------------- rebuilt by the executor

  datatype RepositoryValue = RepositoryValue(
    name: string, path: string, s3: Option<S3Config>, azure: Option<AzureConfig>, google: Option<GoogleConfig>,
    password: string, kind: string)

  const EMPTY_REPOSITORY := RepositoryValue("", "", None, None, None, "", "")

  function S3Of(files: Data): Result<RepositoryValue> {
    if {"accessKey", "secretAccessKey", "endpoint", "disablessl"} <= files.Keys && ParseBool(files["disablessl"]).Some?
       && "region" in files then
      Ok(EMPTY_REPOSITORY.(
        kind := "s3",
        s3 := Some(S3Config(files["endpoint"], files["accessKey"], files["secretAccessKey"], files["region"],
                            ParseBool(files["disablessl"]).value, ""))))
    else Err("failed reading s3 credentials")
  }

  function GoogleOf(files: Data): Result<RepositoryValue> {
    if {"projectid", "accountkey"} <= files.Keys then
      Ok(EMPTY_REPOSITORY.(kind := "google", google := Some(GoogleConfig(files["projectid"], files["accountkey"]))))
    else Err("failed reading google credentials")
  }

  function AzureOf(files: Data): Result<RepositoryValue> {
    if {"storageaccountname", "storageaccountkey"} <= files.Keys then
      Ok(EMPTY_REPOSITORY.(kind := "azure", azure := Some(AzureConfig(files["storageaccountname"], files["storageaccountkey"]))))
    else Err("failed reading azure credentials")
  }

  /** An unknown type yields a repository without credentials, not an error. */
  function ProviderOf(files: Data): Result<RepositoryValue> {
    if "type" !in files then Err("failed reading type")
    else if files["type"] == "s3" then S3Of(files)
    else if files["type"] == "google" then GoogleOf(files)
    else if files["type"] == "azure" then AzureOf(files)
    else Ok(EMPTY_REPOSITORY)
  }

  function CloudCredOf(files: Data): Result<RepositoryValue> {
    match ProviderOf(files)
    case Err(msg) => Err(msg)
    case Ok(r) =>
      if "password" !in files || "path" !in files then Err("failed reading password or path")
      else Ok(r.(path := files["path"], password := files["password"]))
  }

  /** `buildStorkBackupLocation`. */
  function BuildLocation(r: RepositoryValue): Location {
    EMPTY_LOCATION.(
      kind := if r.kind in {"s3", "google", "azure"} then r.kind else "",
      path := r.path,
      s3 := if r.kind == "s3" then r.s3 else None,
      azure := if r.kind == "azure" then r.azure else None,
      google := if r.kind == "google" then r.google else None)
  }

  lemma FormatBoolParses(b: bool)
    ensures ParseBool(FormatBool(b)) == Some(b)
    ensures FormatBool(b) == "true" <==> b
  {
  }

  lemma RoutesAgreeOnS3(l: Location)
    requires l.kind == "s3" && l.s3.Some?
    ensures var r := CloudCredOf(SecretData(l).value);
            r.Ok? && r.value.password == l.repositoryPassword && BuildLocation(r.value) == Carried(l)
  {
    hide ParseBool, FormatBool, GoogleOf, AzureOf;
    FormatBoolParses(l.s3.value.disableSSL);
  }

  lemma RoutesAgreeOnOthers(l: Location)
    requires Supported(l) && !(l.kind == "s3" && l.s3.Some?)
    ensures var r := CloudCredOf(SecretData(l).value);
            r.Ok? && r.value.password == l.repositoryPassword && BuildLocation(r.value) == Carried(l)
  {
    hide S3Of;
  }

  /** Both routes out of the secret give the same location; only the executor also gets the repository password. */
  lemma RoutesAgree(l: Location)
    requires Supported(l)
    ensures CloudCredOf(SecretData(l).value).Ok?
    ensures CloudCredOf(SecretData(l).value).value.password == l.repositoryPassword
    ensures BuildLocation(CloudCredOf(SecretData(l).value).value) == FromSecret(SecretData(l).value) == Carried(l)
  {
    hide FromSecret, ParseBool, FormatBool, SecretData;
    ControllerReadsItBack(l);
    if l.kind == "s3" && l.s3.Some? {
      RoutesAgreeOnS3(l);
    } else {
      RoutesAgreeOnOthers(l);
    }
  }

  class Repository {
    var name: string
    var path: string
    var s3: Option<S3Config>
    var azure: Option<AzureConfig>
    var google: Option<GoogleConfig>
    var password: string
    var kind: string

    constructor ()
      ensures Value() == EMPTY_REPOSITORY
    {
      name, path, s3, azure, google, password, kind := "", "", None, None, None, "", "";
    }

    function Value(): RepositoryValue
      reads this
    {
      RepositoryValue(name, path, s3, azure, google, password, kind)
    }

    method ParseS3Creds(files: Data) returns (failed: bool)
      requires Value() == EMPTY_REPOSITORY
      modifies this
      ensures failed <==> S3Of(files).Err?
      ensures !failed ==> Value() == S3Of(files).value
    {
      hide ParseBool;
      if "accessKey" !in files || "secretAccessKey" !in files || "endpoint" !in files || "disablessl" !in files {
        return true;
      }
      var isSsl := ParseBool(files["disablessl"]);
      if isSsl.None? {
        return true;
      }
      var config := S3Config("", "", "", "", false, "");
      config := config.(accessKeyID := files["accessKey"]);
      config := config.(secretAccessKey := files["secretAccessKey"]);
      config := config.(endpoint := files["endpoint"], disableSSL := isSsl.value);
      kind := "s3";
      if "region" !in files {
        return true;
      }
      s3 := Some(config.(region := files["region"]));
      return false;
    }

    method ParseGoogleCreds(files: Data) returns (failed: bool)
      requires Value() == EMPTY_REPOSITORY
      modifies this
      ensures failed <==> GoogleOf(files).Err?
      ensures !failed ==> Value() == GoogleOf(files).value
    {
      if "projectid" !in files || "accountkey" !in files {
        return true;
      }
      kind := "google";
      google := Some(GoogleConfig(files["projectid"], files["accountkey"]));
      return false;
    }

    method ParseAzureCreds(files: Data) returns (failed: bool)
      requires Value() == EMPTY_REPOSITORY
      modifies this
      ensures failed <==> AzureOf(files).Err?
      ensures !failed ==> Value() == AzureOf(files).value
    {
      if "storageaccountname" !in files || "storageaccountkey" !in files {
        return true;
      }
      kind := "azure";
      azure := Some(AzureConfig(files["storageaccountname"], files["storageaccountkey"]));
      return false;
    }

    /** `ParseCloudCred`: the provider's own files, then the password and the bucket. */
    method ParseCloudCred(files: Data) returns (failed: bool)
      requires Value() == EMPTY_REPOSITORY
      modifies this
      ensures failed <==> CloudCredOf(files).Err?
      ensures !failed ==> Value() == CloudCredOf(files).value
    {
      hide S3Of, GoogleOf, AzureOf;
      if "type" !in files {
        return true;
      }
      failed := false;
      if files["type"] == "s3" {
        failed := ParseS3Creds(files);
      } else if files["type"] == "google" {
        failed := ParseGoogleCreds(files);
      } else if files["type"] == "azure" {
        failed := ParseAzureCreds(files);
      }
      if failed || "password" !in files || "path" !in files {
        return true;
      }
      path := files["path"];
      password := files["password"];
    }
  }
}
