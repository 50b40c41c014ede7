/**
  The part of client-go's kubeconfig data model (package
  k8s.io/client-go/tools/clientcmd/api) that the commands touch.

  In Go, `api.Config` holds maps from names to pointers (`*Cluster`,
  `*AuthInfo`, `*Context`), so a record fetched from a map is updated in place
  and the change is seen through every name that maps to the same record.
  Clusters and users are therefore classes here, and the config is a class
  whose fields are maps to those objects. Contexts are never written by the
  tool, so they are values.
 */
module KubeConfig {

  /** A `[]byte` field of a kubeconfig record. */
  type Bytes = seq<bv8>

  /** `api.Cluster`: the fields the tool reads or writes. */
  class Cluster {
    var server: string
    var certificateAuthorityData: Bytes

    constructor (server: string, certificateAuthorityData: Bytes)
      ensures this.server == server
      ensures this.certificateAuthorityData == certificateAuthorityData
    {
      this.server := server;
      this.certificateAuthorityData := certificateAuthorityData;
    }
  }

  /** `api.AuthInfo`: the client credentials of a user. */
  class AuthInfo {
    var clientCertificateData: Bytes
    var clientKeyData: Bytes

    constructor (clientCertificateData: Bytes, clientKeyData: Bytes)
      ensures this.clientCertificateData == clientCertificateData
      ensures this.clientKeyData == clientKeyData
    {
      this.clientCertificateData := clientCertificateData;
      this.clientKeyData := clientKeyData;
    }
  }

  /** `api.Context`: the names of the cluster and of the user it binds. */
  datatype Context = Context(cluster: string, authInfo: string)

  /** `api.Config`, the local kubeconfig loaded from disk. */
  class Config {
    var clusters: map<string, Cluster>
    var authInfos: map<string, AuthInfo>
    var contexts: map<string, Context>

    constructor (clusters: map<string, Cluster>, authInfos: map<string, AuthInfo>,
                 contexts: map<string, Context>)
      ensures this.clusters == clusters && this.authInfos == authInfos
      ensures this.contexts == contexts
    {
      this.clusters := clusters;
      this.authInfos := authInfos;
      this.contexts := contexts;
    }
  }

  /** A cluster record of a parsed REMOTE kubeconfig. The remote document is
      only read, so its records are values. */
  datatype RemoteCluster = RemoteCluster(server: string, certificateAuthorityData: Bytes)

  /** A user's two credential fields: the value of a local user record, and
      a user record of a parsed remote kubeconfig. */
  datatype Credentials = Credentials(clientCertificateData: Bytes, clientKeyData: Bytes)

  /** A parsed remote kubeconfig: its cluster and user collections, each in
      the order a `range` loop visits them. */
  datatype RemoteConfig = RemoteConfig(clusters: seq<RemoteCluster>, authInfos: seq<Credentials>)

  /** The value of a local kubeconfig at one moment: its three maps, and the
      fields of every cluster and user record reachable from them, keyed by
      the record (so two names that share a record share its fields). */
  datatype Snapshot = Snapshot(
    clusters: map<string, Cluster>,
    authInfos: map<string, AuthInfo>,
    contexts: map<string, Context>,
    servers: map<Cluster, string>,
    caData: map<Cluster, Bytes>,
    credentials: map<AuthInfo, Credentials>)

  /** Every record reachable from the maps has its fields in the snapshot. */
  predicate Covers(s: Snapshot)
  {
    && (forall name :: name in s.clusters ==> s.clusters[name] in s.servers && s.clusters[name] in s.caData)
    && (forall name :: name in s.authInfos ==> s.authInfos[name] in s.credentials)
  }

  /** The current value of `config`. */
  function SnapshotOf(config: Config): (s: Snapshot)
    reads config, config.clusters.Values, config.authInfos.Values
    ensures Covers(s)
    ensures s.clusters == config.clusters && s.authInfos == config.authInfos
    ensures s.contexts == config.contexts
    ensures forall c :: c in config.clusters.Values ==>
              s.servers[c] == c.server && s.caData[c] == c.certificateAuthorityData
    ensures forall u :: u in config.authInfos.Values ==>
              s.credentials[u] == Credentials(u.clientCertificateData, u.clientKeyData)
  {
    Snapshot(config.clusters, config.authInfos, config.contexts,
             map c | c in config.clusters.Values :: c.server,
             map c | c in config.clusters.Values :: c.certificateAuthorityData,
             map u | u in config.authInfos.Values :: Credentials(u.clientCertificateData, u.clientKeyData))
  }

  /** A `range` loop over `Contexts` that appends every key to a slice. Go
      visits map keys in an unspecified order; the model takes any remaining
      key at each step, so the contract holds for every visiting order. */
  method ContextNames(contexts: map<string, Context>) returns (names: seq<string>)
    ensures multiset(names) == multiset(contexts.Keys)
  {
    names := [];
    var rest := contexts.Keys;
    while rest != {}
      invariant rest <= contexts.Keys
      invariant multiset(names) + multiset(rest) == multiset(contexts.Keys)
      decreases |rest|
    {
      var name :| name in rest;
      assert multiset(rest) == multiset(rest - {name}) + multiset{name};
      names := names + [name];
      rest := rest - {name};
    }
  }

  /** A list holding every context name once has no repeated name, and it
      holds exactly the names of the contexts. */
  lemma {:induction false} ContextNamesDistinct(contexts: map<string, Context>, names: seq<string>)
    requires multiset(names) == multiset(contexts.Keys)
    ensures forall i, j :: 0 <= i < j < |names| ==> names[i] != names[j]
    ensures forall n :: n in names <==> n in contexts
  {
    forall i, j | 0 <= i < j < |names|
      ensures names[i] != names[j]
    {
      if names[i] == names[j] {
        RepeatedTwice(names, i, j);
        assert false;
      }
    }
    forall n
      ensures n in names <==> n in contexts
    {
      assert n in names <==> n in multiset(names);
    }
  }

  lemma RepeatedTwice(s: seq<string>, i: nat, j: nat)
    requires i < j < |s| && s[i] == s[j]
    ensures multiset(s)[s[i]] >= 2
  {
    assert s == s[..i] + [s[i]] + s[i + 1..j] + [s[j]] + s[j + 1..];
  }
}
