/**
 * The syncer of a site's Wordpress object
 * (pkg/controller/site/internal/sync/wordpress.go): the site labels and
 * an environment of exactly five variables that point WordPress at the
 * site's memcached service, its MySQL master and the credentials secret.
 */
module WordpressSync {
  import opened Labels
  import opened KubePod
  import InternalSite
  import MysqlClusterSecret

  /** The Wordpress object: its labels and its environment. */
  class Wordpress {
    var labels: LabelSet
    var env: seq<EnvVar>

    constructor (labels: LabelSet, env: seq<EnvVar>)
      ensures this.labels == labels && this.env == env
    {
      this.labels := labels;
      this.env := env;
    }
  }

  /** The environment of a site `siteName` in `namespace`, in its fixed order. */
  function Env(siteName: string, namespace: string): (env: seq<EnvVar>)
    ensures |env| == 5
    ensures env[0] == EnvVar("MEMCACHED_DISCOVERY_SERVICE", Literal(siteName + "-memcached." + namespace))
    ensures env[1] == EnvVar("WORDPRESS_DB_HOST", Literal(siteName + "-mysql-master." + namespace))
    ensures env[2] == EnvVar("WORDPRESS_DB_USER", SecretKey(siteName + "-mysql", MysqlClusterSecret.UserKey))
    ensures env[3] == EnvVar("WORDPRESS_DB_PASSWORD", SecretKey(siteName + "-mysql", MysqlClusterSecret.PasswordKey))
    ensures env[4] == EnvVar("WORDPRESS_DB_NAME", SecretKey(siteName + "-mysql", MysqlClusterSecret.DatabaseKey))
  {
    InternalSite.ComponentNames(siteName);
    var secret := InternalSite.SiteComponentName(siteName, InternalSite.MysqlClusterSecret);
    assert siteName + "-memcached" + "." + namespace == siteName + "-memcached." + namespace;
    [
      EnvVar("MEMCACHED_DISCOVERY_SERVICE",
        Literal(InternalSite.SiteComponentName(siteName, InternalSite.MemcachedService) + "." + namespace)),
      EnvVar("WORDPRESS_DB_HOST", Literal(siteName + "-mysql-master." + namespace)),
      EnvVar("WORDPRESS_DB_USER", SecretKey(secret, MysqlClusterSecret.UserKey)),
      EnvVar("WORDPRESS_DB_PASSWORD", SecretKey(secret, MysqlClusterSecret.PasswordKey)),
      EnvVar("WORDPRESS_DB_NAME", SecretKey(secret, MysqlClusterSecret.DatabaseKey))
    ]
  }

  /**
   * Every secret key the environment reads is one the MySQL secret syncer
   * guarantees, and every reference names that syncer's secret.
   */
  lemma EnvReadsManagedSecret(siteName: string, namespace: string)
    ensures forall i :: 0 <= i < |Env(siteName, namespace)| && Env(siteName, namespace)[i].source.SecretKey? ==>
      Env(siteName, namespace)[i].source.key in MysqlClusterSecret.CredentialKeys &&
      Env(siteName, namespace)[i].source.secretName == InternalSite.SiteComponentName(siteName, InternalSite.MysqlClusterSecret)
  {
    InternalSite.ComponentNames(siteName);
  }

  /** The variable names are distinct: no variable shadows another. */
  lemma EnvNamesDistinct(siteName: string, namespace: string)
    ensures forall i, j :: 0 <= i < j < |Env(siteName, namespace)| ==> Env(siteName, namespace)[i].name != Env(siteName, namespace)[j].name
  {
  }

  /** The syncer's closure: the labels are merged and the environment replaced; it never fails. */
  method Sync(out: Wordpress, siteName: string, namespace: string, siteLabels: LabelSet, controllerLabels: LabelSet)
    modifies out
    ensures out.labels == Relabel(old(out.labels), InternalSite.SiteLabels(siteName, siteLabels), controllerLabels)
    ensures out.env == Env(siteName, namespace)
  {
    out.labels := Relabel(out.labels, InternalSite.SiteLabels(siteName, siteLabels), controllerLabels);
    out.env := Env(siteName, namespace);
  }
}
