/**
 * The syncer of a site's MySQL credentials secret
 * (pkg/controller/site/internal/sync/mysql_cluster_secret.go): it fills in
 * the credentials the secret lacks and never overwrites one it has. The
 * random password generator is not part of this model: its two results are
 * parameters.
 */
module MysqlClusterSecret {
  import opened Wrappers
  import opened Labels
  import InternalSite

  const UserKey: string := "USER"
  const DatabaseKey: string := "DATABASE"
  const RootPasswordKey: string := "ROOT_PASSWORD"
  const PasswordKey: string := "PASSWORD"
  const DefaultUser: string := "wordpress"

  const CredentialKeys: set<string> := {UserKey, DatabaseKey, RootPasswordKey, PasswordKey}

  /** The secret: its labels, the data it holds (byte values as strings), and the string data to write. */
  class Secret {
    var labels: LabelSet
    var data: map<string, string>
    var stringData: map<string, string>

    constructor (labels: LabelSet, data: map<string, string>, stringData: map<string, string>)
      ensures this.labels == labels && this.data == data && this.stringData == stringData
    {
      this.labels := labels;
      this.data := data;
      this.stringData := stringData;
    }
  }

  /**
   * The credentials to add: `wordpress` for a missing user and database, a
   * generated password for a missing root password and password (the
   * generator's results `rootPassword` and `password`); a generator error
   * for a missing password stops the sync.
   */
  function MissingCredentials(data: map<string, string>, rootPassword: Result<string, string>, password: Result<string, string>)
    : (r: Result<map<string, string>, string>)
    ensures RootPasswordKey !in data && rootPassword.Err? ==> r == Err(rootPassword.error)
    ensures !(RootPasswordKey !in data && rootPassword.Err?) && PasswordKey !in data && password.Err? ==> r == Err(password.error)
    ensures r.Err? ==> (RootPasswordKey !in data && rootPassword.Err?) || (PasswordKey !in data && password.Err?)
    ensures r.Ok? ==> r.value.Keys == CredentialKeys - data.Keys
    ensures r.Ok? && UserKey !in data ==> r.value[UserKey] == DefaultUser
    ensures r.Ok? && DatabaseKey !in data ==> r.value[DatabaseKey] == DefaultUser
    ensures r.Ok? && RootPasswordKey !in data ==> r.value[RootPasswordKey] == rootPassword.value
    ensures r.Ok? && PasswordKey !in data ==> r.value[PasswordKey] == password.value
  {
    if RootPasswordKey !in data && rootPassword.Err? then Err(rootPassword.error)
    else if PasswordKey !in data && password.Err? then Err(password.error)
    else Ok(Fill(Fill(Fill(Fill(map[], data, UserKey, Ok(DefaultUser)), data, DatabaseKey, Ok(DefaultUser)),
                      data, RootPasswordKey, rootPassword), data, PasswordKey, password))
  }

  /** One step of the closure: a key the data lacks gets the value; a key it holds is skipped. */
  function Fill(sd: map<string, string>, data: map<string, string>, key: string, value: Result<string, string>)
    : (r: map<string, string>)
    requires key !in data ==> value.Ok?
    ensures key !in data ==> r == sd[key := value.value]
    ensures key in data ==> r == sd
  {
    if key !in data then sd[key := value.value] else sd
  }

  /** The steps of the closure that build the string data, on the data in place. */
  method BuildStringData(data: map<string, string>, rootPassword: Result<string, string>, password: Result<string, string>)
    returns (r: Result<map<string, string>, string>)
    ensures r == MissingCredentials(data, rootPassword, password)
  {
    var stringData: map<string, string> := map[];
    if UserKey !in data {
      stringData := stringData[UserKey := DefaultUser];
    }
    if DatabaseKey !in data {
      stringData := stringData[DatabaseKey := DefaultUser];
    }
    if RootPasswordKey !in data {
      if rootPassword.Err? {
        return Err(rootPassword.error);
      }
      stringData := stringData[RootPasswordKey := rootPassword.value];
    }
    if PasswordKey !in data {
      if password.Err? {
        return Err(password.error);
      }
      stringData := stringData[PasswordKey := password.value];
    }
    return Ok(stringData);
  }

  /**
   * The syncer's closure: the labels become those in place merged with the
   * secret component's labels (`objLabels`) and the controller's labels;
   * the missing credentials are written as string data when there is at
   * least one, and the string data is left as it was otherwise. The data in
   * place is never touched.
   */
  method Sync(out: Secret, objLabels: LabelSet, controllerLabels: LabelSet,
              rootPassword: Result<string, string>, password: Result<string, string>) returns (err: Option<string>)
    modifies out
    ensures out.labels == Relabel(old(out.labels), objLabels, controllerLabels)
    ensures out.data == old(out.data)
    ensures var r := MissingCredentials(old(out.data), rootPassword, password);
      (r.Err? ==> err == Some(r.error) && out.stringData == old(out.stringData)) &&
      (r.Ok? ==> err.None? && out.stringData == (if |r.value| > 0 then r.value else old(out.stringData)))
  {
    out.labels := Relabel(out.labels, objLabels, controllerLabels);
    var stringData := BuildStringData(out.data, rootPassword, password);
    if stringData.Err? {
      return Some(stringData.error);
    }
    if |stringData.value| > 0 {
      out.stringData := stringData.value;
    }
    return None;
  }

  /** A credential the secret already holds is never written again, so a password is never replaced. */
  lemma HeldCredentialsKept(data: map<string, string>, rootPassword: Result<string, string>, password: Result<string, string>)
    requires MissingCredentials(data, rootPassword, password).Ok?
    ensures data.Keys !! MissingCredentials(data, rootPassword, password).value.Keys
  {
  }

  /** With all four credentials in place there is nothing to add and nothing can fail. */
  lemma CompleteSecretUntouched(data: map<string, string>, rootPassword: Result<string, string>, password: Result<string, string>)
    requires CredentialKeys <= data.Keys
    ensures MissingCredentials(data, rootPassword, password) == Ok(map[])
  {
  }

  /** Once the generated credentials are stored as data, the next run adds nothing. */
  lemma SecondRunAddsNothing(data: map<string, string>, rootPassword: Result<string, string>, password: Result<string, string>,
                             rootPassword2: Result<string, string>, password2: Result<string, string>)
    requires MissingCredentials(data, rootPassword, password).Ok?
    ensures MissingCredentials(data + MissingCredentials(data, rootPassword, password).value, rootPassword2, password2) == Ok(map[])
  {
  }
}
