/**
  The `sync` command: bring the CA data and the client certificate and key
  of one local context (or of every context) up to date with the kubeconfig
  found on the cluster's host, fetched over ssh.

  Collaborators that are not modelled are parameters: the ssh fetch
  (`getRemoteKubeconfig`) and the parser (`clientcmd.Load`) are functions
  from their input to a result, and `clientcmd.WriteToFile` is given as the
  error it would return. Every `os.Exit(1)` becomes a `Failure`.
 */
module Sync {
  import opened Wrappers
  import opened KubeConfig
  import opened GoStrings

  /** Why the command stops with exit status 1. */
  datatype SyncError =
    | ContextNotFound(context: string)
    | ClusterNotFound(cluster: string)
    | UserNotFound(user: string)
    | InvalidServerURL(context: string)
    | FetchFailed(reason: string)
    | ParseFailed(reason: string)
    | WriteFailed(reason: string)
    | NoContextChosen

  /** What a successful sync of one context reports. */
  datatype Report = AlreadyUpToDate | Updated

  /** The only scheme that is stripped from a server URL. */
  const HttpsScheme := "https://"

  // ---------------------------------------------------------------------
  // Host derivation
  // ---------------------------------------------------------------------

  /** The host part of a cluster's server URL: drop one leading "https://",
      then keep the text before the first ':'. */
  function ServerHost(server: string): (host: string)
    ensures var rest := if HttpsScheme <= server then server[|HttpsScheme|..] else server;
            && host <= rest
            && ':' !in host
            && (|host| < |rest| ==> rest[|host|] == ':')
  {
    FirstField(TrimPrefix(server, HttpsScheme), ':')
  }

  /** The host to ssh to: a non-empty override as given, otherwise the host
      of the server URL; None when that host is empty. */
  function TargetHost(sshHost: string, server: string): (r: Option<string>)
    ensures sshHost != "" ==> r == Some(sshHost)
    ensures r.Some? ==> r.value != ""
  {
    if sshHost != "" then Some(sshHost)
    else
      var host := ServerHost(server);
      if host == "" then None else Some(host)
  }

  /** Without an override, derivation fails exactly when the URL, after
      removing a leading "https://", is empty or starts with ':'. */
  lemma TargetHostFailsIff(server: string)
    ensures var rest := if HttpsScheme <= server then server[|HttpsScheme|..] else server;
            TargetHost("", server) == None <==> rest == [] || rest[0] == ':'
    ensures TargetHost("", server).Some? ==> TargetHost("", server).value == ServerHost(server)
  {
  }

  /** The override is used verbatim and the server URL is then irrelevant. */
  lemma OverrideIgnoresServer(sshHost: string, server1: string, server2: string)
    requires sshHost != ""
    ensures TargetHost(sshHost, server1) == TargetHost(sshHost, server2) == Some(sshHost)
  {
  }

  /** Worked examples of the derivation. */
  lemma ServerHostWithSchemeAndPort()
    ensures ServerHost("https://10.0.0.5:6443") == "10.0.0.5"
  {
    assert "https://10.0.0.5:6443" == HttpsScheme + "10.0.0.5:6443";
    assert TrimPrefix("https://10.0.0.5:6443", HttpsScheme) == "10.0.0.5:6443";
    assert "10.0.0.5:6443" == "10.0.0.5" + ":6443";
    FirstFieldBefore("10.0.0.5", ':', ":6443");
  }

  lemma ServerHostBare()
    ensures ServerHost("10.0.0.5") == "10.0.0.5"
  {
    assert HttpsScheme[0] != "10.0.0.5"[0];
    FirstFieldBefore("10.0.0.5", ':', "");
    assert "10.0.0.5" + "" == "10.0.0.5";
  }

  /** Only "https://" is stripped: an "http://" URL yields "http". */
  lemma ServerHostOtherScheme()
    ensures ServerHost("http://h:80") == "http"
  {
    assert HttpsScheme[4] != "http://h:80"[4];
    assert "http://h:80" == "http" + "://h:80";
    FirstFieldBefore("http", ':', "://h:80");
  }

  /** At most one leading "https://" is removed. */
  lemma ServerHostSchemeTwice()
    ensures ServerHost("https://https://h:1") == "https"
  {
    assert "https://https://h:1" == HttpsScheme + "https://h:1";
    assert TrimPrefix("https://https://h:1", HttpsScheme) == "https://h:1";
    assert "https://h:1" == "https" + "://h:1";
    FirstFieldBefore("https", ':', "://h:1");
  }

  /** URLs whose host part is empty are rejected. */
  lemma EmptyHostExamples()
    ensures TargetHost("", "") == None
    ensures TargetHost("", "https://") == None
    ensures TargetHost("", ":6443") == None
  {
  }

  // ---------------------------------------------------------------------
  // Field merge
  // ---------------------------------------------------------------------

  /** A field after one merge loop, and whether the loop wrote it. */
  datatype FieldMerge = FieldMerge(value: Bytes, changed: bool)

  /** One field's merge loop: visit the remote values in order, and each time
      the current value differs from the visited one, overwrite it and note
      the change. */
  function MergeField(local: Bytes, incoming: seq<Bytes>): (r: FieldMerge)
    ensures r.value == local || r.value in incoming
    decreases |incoming|
  {
    if incoming == [] then FieldMerge(local, false)
    else
      var prev := MergeField(local, incoming[..|incoming| - 1]);
      var next := incoming[|incoming| - 1];
      if prev.value != next then FieldMerge(next, true) else prev
  }

  /** The last remote value wins, and the flag is set exactly when some
      remote value differs from the starting one. */
  lemma {:induction false} MergeFieldSpec(local: Bytes, incoming: seq<Bytes>)
    ensures var r := MergeField(local, incoming);
            && r.value == (if incoming == [] then local else incoming[|incoming| - 1])
            && (r.changed <==> exists j :: 0 <= j < |incoming| && incoming[j] != local)
    decreases |incoming|
  {
    if incoming != [] {
      var init := incoming[..|incoming| - 1];
      MergeFieldSpec(local, init);
      var prev := MergeField(local, init);
      if prev.changed {
        var j :| 0 <= j < |init| && init[j] != local;
        assert incoming[j] != local;
      } else if prev.value != incoming[|incoming| - 1] {
        assert incoming[|incoming| - 1] != local;
      } else {
        forall j | 0 <= j < |incoming|
          ensures incoming[j] == local
        {
          if j < |init| {
            assert init[j] == incoming[j];
          }
        }
      }
    }
  }

  function CAData(clusters: seq<RemoteCluster>): (r: seq<Bytes>)
    ensures |r| == |clusters|
    ensures forall i :: 0 <= i < |r| ==> r[i] == clusters[i].certificateAuthorityData
  {
    seq(|clusters|, i requires 0 <= i < |clusters| => clusters[i].certificateAuthorityData)
  }

  function CertData(users: seq<Credentials>): (r: seq<Bytes>)
    ensures |r| == |users|
    ensures forall i :: 0 <= i < |r| ==> r[i] == users[i].clientCertificateData
  {
    seq(|users|, i requires 0 <= i < |users| => users[i].clientCertificateData)
  }

  function KeyData(users: seq<Credentials>): (r: seq<Bytes>)
    ensures |r| == |users|
    ensures forall i :: 0 <= i < |r| ==> r[i] == users[i].clientKeyData
  {
    seq(|users|, i requires 0 <= i < |users| => users[i].clientKeyData)
  }

  /** The three fields after the merge, and the `updateNeeded` flag. */
  datatype Merged = Merged(caData: Bytes, certData: Bytes, keyData: Bytes, updateNeeded: bool)

  /** The merge of a remote kubeconfig into the resolved cluster (CA data) and
      user (client certificate and key). */
  function Merge(caData: Bytes, certData: Bytes, keyData: Bytes, remote: RemoteConfig): (m: Merged)
    ensures !m.updateNeeded ==> m.caData == caData && m.certData == certData && m.keyData == keyData
  {
    MergeFieldSpec(caData, CAData(remote.clusters));
    MergeFieldSpec(certData, CertData(remote.authInfos));
    MergeFieldSpec(keyData, KeyData(remote.authInfos));
    var ca := MergeField(caData, CAData(remote.clusters));
    var cert := MergeField(certData, CertData(remote.authInfos));
    var key := MergeField(keyData, KeyData(remote.authInfos));
    Merged(ca.value, cert.value, key.value, ca.changed || cert.changed || key.changed)
  }

  /** The CA data becomes the last remote cluster's, the certificate and key
      the last remote user's, each field staying as it was when there is no
      remote record of its kind; an update is needed exactly when some
      remote value differs from the local one. */
  lemma MergeSpec(caData: Bytes, certData: Bytes, keyData: Bytes, remote: RemoteConfig)
    ensures var m := Merge(caData, certData, keyData, remote);
            var cs, us := remote.clusters, remote.authInfos;
            && m.caData == (if cs == [] then caData else cs[|cs| - 1].certificateAuthorityData)
            && m.certData == (if us == [] then certData else us[|us| - 1].clientCertificateData)
            && m.keyData == (if us == [] then keyData else us[|us| - 1].clientKeyData)
            && (m.updateNeeded <==>
                  || (exists i :: 0 <= i < |cs| && cs[i].certificateAuthorityData != caData)
                  || (exists i :: 0 <= i < |us| && us[i].clientCertificateData != certData)
                  || (exists i :: 0 <= i < |us| && us[i].clientKeyData != keyData))
  {
    var cas, certs, keys := CAData(remote.clusters), CertData(remote.authInfos), KeyData(remote.authInfos);
    MergeFieldSpec(caData, cas);
    MergeFieldSpec(certData, certs);
    MergeFieldSpec(keyData, keys);
    if exists i :: 0 <= i < |cas| && cas[i] != caData {
      var i :| 0 <= i < |cas| && cas[i] != caData;
      assert remote.clusters[i].certificateAuthorityData != caData;
    }
    if exists i :: 0 <= i < |certs| && certs[i] != certData {
      var i :| 0 <= i < |certs| && certs[i] != certData;
      assert remote.authInfos[i].clientCertificateData != certData;
    }
    if exists i :: 0 <= i < |keys| && keys[i] != keyData {
      var i :| 0 <= i < |keys| && keys[i] != keyData;
      assert remote.authInfos[i].clientKeyData != keyData;
    }
  }

  /** Merging the same remote document a second time reports an update exactly
      when the remote records of one kind disagree among themselves (so the
      last-wins result is not what every record says). */
  lemma MergeTwice(caData: Bytes, certData: Bytes, keyData: Bytes, remote: RemoteConfig)
    ensures var m := Merge(caData, certData, keyData, remote);
            var again := Merge(m.caData, m.certData, m.keyData, remote);
            && again.caData == m.caData && again.certData == m.certData && again.keyData == m.keyData
            && (again.updateNeeded <==>
                  || (exists i :: 0 <= i < |remote.clusters| && remote.clusters[i].certificateAuthorityData != m.caData)
                  || (exists i :: 0 <= i < |remote.authInfos| && remote.authInfos[i] != Credentials(m.certData, m.keyData)))
  {
    var m := Merge(caData, certData, keyData, remote);
    MergeSpec(caData, certData, keyData, remote);
    MergeSpec(m.caData, m.certData, m.keyData, remote);
  }

  /** With exactly one remote cluster and one remote user, a second merge
      changes nothing and reports no update. */
  lemma MergeIdempotentSingle(caData: Bytes, certData: Bytes, keyData: Bytes, remote: RemoteConfig)
    requires |remote.clusters| == 1 && |remote.authInfos| == 1
    ensures var m := Merge(caData, certData, keyData, remote);
            var again := Merge(m.caData, m.certData, m.keyData, remote);
            again == Merged(m.caData, m.certData, m.keyData, false)
  {
    var m := Merge(caData, certData, keyData, remote);
    MergeSpec(caData, certData, keyData, remote);
    MergeSpec(m.caData, m.certData, m.keyData, remote);
  }

  /** A worked example of the merge: CA 01 -> AA, certificate 02 kept,
      key 03 -> BB, and an update is reported. */
  lemma MergeExample()
    ensures Merge([0x01], [0x02], [0x03],
                  RemoteConfig([RemoteCluster("https://c1:6443", [0xAA])], [Credentials([0x02], [0xBB])]))
            == Merged([0xAA], [0x02], [0xBB], true)
  {
  }

  /** Remote records that disagree among themselves: the local CA 0A is
      overwritten with 0B and then with 0A again, so an update is reported
      (and the file rewritten) although the CA data ends as it started. */
  lemma MergeRewritesUnchanged()
    ensures Merge([0x0A], [0x02], [0x03],
                  RemoteConfig([RemoteCluster("https://c1:6443", [0x0B]), RemoteCluster("https://c2:6443", [0x0A])], []))
            == Merged([0x0A], [0x02], [0x03], true)
  {
  }

  // ---------------------------------------------------------------------
  // syncContext, as a function of the configuration's value
  // ---------------------------------------------------------------------

  /** The collaborators of one sync: the ssh fetch of `user@host`, the
      parser, and the error the file write returns, if any. */
  datatype Env = Env(fetch: string -> Result<string, string>,
                     parse: string -> Result<RemoteConfig, string>,
                     writeError: Option<string>)

  /** The context exists and both records it names exist. */
  predicate Resolves(s: Snapshot, name: string)
  {
    && name in s.contexts
    && s.contexts[name].cluster in s.clusters
    && s.contexts[name].authInfo in s.authInfos
  }

  /** The cluster record a resolvable context names. */
  function ClusterOf(s: Snapshot, name: string): (c: Cluster)
    requires Resolves(s, name)
    ensures Covers(s) ==> c in s.servers && c in s.caData
  {
    s.clusters[s.contexts[name].cluster]
  }

  /** The user record a resolvable context names. */
  function AuthInfoOf(s: Snapshot, name: string): (u: AuthInfo)
    requires Resolves(s, name)
    ensures Covers(s) ==> u in s.credentials
  {
    s.authInfos[s.contexts[name].authInfo]
  }

  /** The ssh destination `user@host`. */
  function SshDestination(sshUser: string, host: string): (d: string)
    ensures |d| == |sshUser| + 1 + |host| && d[|sshUser|] == '@'
    ensures d[..|sshUser|] == sshUser && d[|sshUser| + 1..] == host
  {
    sshUser + "@" + host
  }

  /** What one sync did: the host the fetch went to (None when it never ran),
      whether the file write was attempted, the outcome, and the new value of
      the configuration. */
  datatype Step = Step(contacted: Option<string>, written: bool,
                       result: Result<Report, SyncError>, after: Snapshot)

  /** `syncContext` on the value of the configuration: resolve the context,
      derive the host, fetch and parse, merge the three byte fields into the
      resolved records, and write when something changed. */
  function SyncStep(s: Snapshot, name: string, sshUser: string, sshHost: string, env: Env): (r: Step)
    requires Covers(s)
    ensures Covers(r.after)
    ensures !r.written ==> r.after == s
  {
    if name !in s.contexts then Step(None, false, Failure(ContextNotFound(name)), s)
    else if s.contexts[name].cluster !in s.clusters then
      Step(None, false, Failure(ClusterNotFound(s.contexts[name].cluster)), s)
    else if s.contexts[name].authInfo !in s.authInfos then
      Step(None, false, Failure(UserNotFound(s.contexts[name].authInfo)), s)
    else
      var cluster, user := ClusterOf(s, name), AuthInfoOf(s, name);
      var host := TargetHost(sshHost, s.servers[cluster]);
      if host.None? then Step(None, false, Failure(InvalidServerURL(name)), s)
      else
        var fetched := env.fetch(SshDestination(sshUser, host.value));
        if fetched.Failure? then Step(host, false, Failure(FetchFailed(fetched.error)), s)
        else
          var parsed := env.parse(fetched.value);
          if parsed.Failure? then Step(host, false, Failure(ParseFailed(parsed.error)), s)
          else
            MergeStep(s, cluster, user, host.value, parsed.value, env.writeError)
  }

  /** The end of `syncContext` once the remote document is parsed: merge it
      into the cluster and user records, and write when something changed. */
  function MergeStep(s: Snapshot, cluster: Cluster, user: AuthInfo, host: string,
                     remote: RemoteConfig, writeError: Option<string>): (r: Step)
    requires Covers(s) && cluster in s.caData && user in s.credentials
    ensures Covers(r.after)
    ensures r.contacted == Some(host)
    ensures !r.written ==> r.after == s && r.result == Success(AlreadyUpToDate)
  {
    var credentials := s.credentials[user];
    var m := Merge(s.caData[cluster], credentials.clientCertificateData,
                   credentials.clientKeyData, remote);
    var after := s.(caData := s.caData[cluster := m.caData],
                    credentials := s.credentials[user := Credentials(m.certData, m.keyData)]);
    var result := if !m.updateNeeded then Success(AlreadyUpToDate)
                  else if writeError.Some? then Failure(WriteFailed(writeError.value))
                  else Success(Updated);
    Step(Some(host), m.updateNeeded, result, after)
  }

  /** Resolution runs context, then cluster, then user, each with its own
      error; a failure there fetches nothing, writes nothing and changes
      nothing. */
  lemma SyncStepResolution(s: Snapshot, name: string, sshUser: string, sshHost: string, env: Env)
    requires Covers(s)
    ensures var r := SyncStep(s, name, sshUser, sshHost, env);
            && (name !in s.contexts ==> r.result == Failure(ContextNotFound(name)))
            && (name in s.contexts && s.contexts[name].cluster !in s.clusters ==>
                  r.result == Failure(ClusterNotFound(s.contexts[name].cluster)))
            && (name in s.contexts && s.contexts[name].cluster in s.clusters
                && s.contexts[name].authInfo !in s.authInfos ==>
                  r.result == Failure(UserNotFound(s.contexts[name].authInfo)))
            && (!Resolves(s, name) ==> r.contacted == None && !r.written && r.after == s)
  {
  }

  /** The fetch goes to the host `TargetHost` derives; when there is none,
      the sync fails with `InvalidServerURL` and changes nothing. */
  lemma SyncStepHost(s: Snapshot, name: string, sshUser: string, sshHost: string, env: Env)
    requires Covers(s) && Resolves(s, name)
    ensures var r := SyncStep(s, name, sshUser, sshHost, env);
            && r.contacted == TargetHost(sshHost, s.servers[ClusterOf(s, name)])
            && (r.contacted == None ==>
                  r.result == Failure(InvalidServerURL(name)) && !r.written && r.after == s)
  {
  }

  /** A failed fetch or parse is reported with its reason, and nothing is
      written or changed. */
  lemma SyncStepRemoteFailures(s: Snapshot, name: string, sshUser: string, sshHost: string, env: Env)
    requires Covers(s)
    ensures var r := SyncStep(s, name, sshUser, sshHost, env);
            r.contacted.Some? ==>
              var fetched := env.fetch(SshDestination(sshUser, r.contacted.value));
              && (fetched.Failure? ==> r.result == Failure(FetchFailed(fetched.error)))
              && (fetched.Success? && env.parse(fetched.value).Failure? ==>
                    r.result == Failure(ParseFailed(env.parse(fetched.value).error)))
              && (fetched.Failure? || env.parse(fetched.value).Failure? ==> !r.written && r.after == s)
  {
  }

  /** Once the remote document is parsed, the resolved cluster's CA data and
      the resolved user's certificate and key take the `Merge` values, the
      file is written exactly when `Merge` reports `updateNeeded`, and the
      report follows from that and the write's error. */
  lemma SyncStepMerge(s: Snapshot, name: string, sshUser: string, sshHost: string, env: Env,
                      host: string, remote: RemoteConfig)
    requires Covers(s) && Resolves(s, name)
    requires TargetHost(sshHost, s.servers[ClusterOf(s, name)]) == Some(host)
    requires env.fetch(SshDestination(sshUser, host)).Success?
    requires env.parse(env.fetch(SshDestination(sshUser, host)).value) == Success(remote)
    ensures var r := SyncStep(s, name, sshUser, sshHost, env);
            var cluster, user := ClusterOf(s, name), AuthInfoOf(s, name);
            var m := Merge(s.caData[cluster], s.credentials[user].clientCertificateData,
                           s.credentials[user].clientKeyData, remote);
            && r.contacted == Some(host)
            && r.after.caData[cluster] == m.caData
            && r.after.credentials[user] == Credentials(m.certData, m.keyData)
            && r.written == m.updateNeeded
            && r.result == (if !m.updateNeeded then Success(AlreadyUpToDate)
                            else if env.writeError.Some? then Failure(WriteFailed(env.writeError.value))
                            else Success(Updated))
  {
  }

  /** A sync adds, removes and renames nothing and keeps every server URL;
      no cluster or user other than the resolved ones changes, including
      records reached through other names. */
  lemma SyncStepFrame(s: Snapshot, name: string, sshUser: string, sshHost: string, env: Env)
    requires Covers(s)
    ensures var t := SyncStep(s, name, sshUser, sshHost, env).after;
            && t.clusters == s.clusters && t.authInfos == s.authInfos
            && t.contexts == s.contexts && t.servers == s.servers
            && t.caData.Keys == s.caData.Keys && t.credentials.Keys == s.credentials.Keys
            && (forall c :: c in s.caData && !(Resolves(s, name) && c == ClusterOf(s, name)) ==>
                  t.caData[c] == s.caData[c])
            && (forall u :: u in s.credentials && !(Resolves(s, name) && u == AuthInfoOf(s, name)) ==>
                  t.credentials[u] == s.credentials[u])
  {
    var r := SyncStep(s, name, sshUser, sshHost, env);
    if r.after != s {
      var cluster, user := ClusterOf(s, name), AuthInfoOf(s, name);
      var fetched := env.fetch(SshDestination(sshUser, r.contacted.value));
      assert r == MergeStep(s, cluster, user, r.contacted.value, env.parse(fetched.value).value, env.writeError);
    }
  }

  /** Two syncs of one context against a remote kubeconfig with one cluster
      and one user: the first succeeds, and the second reports already up to
      date, writes nothing and changes nothing. */
  lemma SyncStepTwice(s: Snapshot, name: string, sshUser: string, sshHost: string,
                      text: string, remote: RemoteConfig, env: Env)
    requires Covers(s) && Resolves(s, name)
    requires TargetHost(sshHost, s.servers[ClusterOf(s, name)]).Some?
    requires env.fetch(SshDestination(sshUser, TargetHost(sshHost, s.servers[ClusterOf(s, name)]).value)) == Success(text)
    requires env.parse(text) == Success(remote)
    requires env.writeError == None
    requires |remote.clusters| == 1 && |remote.authInfos| == 1
    ensures var first := SyncStep(s, name, sshUser, sshHost, env);
            var second := SyncStep(first.after, name, sshUser, sshHost, env);
            && first.result.Success?
            && second.result == Success(AlreadyUpToDate) && !second.written
            && second.after == first.after
  {
    var first := SyncStep(s, name, sshUser, sshHost, env);
    var cluster, user := ClusterOf(s, name), AuthInfoOf(s, name);
    var m := Merge(s.caData[cluster], s.credentials[user].clientCertificateData,
                   s.credentials[user].clientKeyData, remote);
    MergeIdempotentSingle(s.caData[cluster], s.credentials[user].clientCertificateData,
                          s.credentials[user].clientKeyData, remote);
    assert first.after.caData[cluster := m.caData] == first.after.caData;
    assert first.after.credentials[user := Credentials(m.certData, m.keyData)] == first.after.credentials;
  }

  // ---------------------------------------------------------------------
  // syncContext on the objects
  // ---------------------------------------------------------------------

  /** `syncContext`: the same decisions as `SyncStep`, with the merge done
      IN PLACE on the cluster and user objects the maps point to.
      `contacted` is the host the fetch went to (None when it never ran) and
      `written` says whether the file write was attempted. */
  method SyncContext(config: Config, contextName: string, sshUser: string, sshHost: string, env: Env)
    returns (contacted: Option<string>, written: bool, result: Result<Report, SyncError>)
    modifies config.clusters.Values, config.authInfos.Values
    ensures unchanged(config)
    ensures Step(contacted, written, result, SnapshotOf(config))
            == SyncStep(old(SnapshotOf(config)), contextName, sshUser, sshHost, env)
  {
    ghost var s := SnapshotOf(config);
    contacted, written := None, false;
    if contextName !in config.contexts {
      result := Failure(ContextNotFound(contextName));
      return;
    }
    var context := config.contexts[contextName];
    if context.cluster !in config.clusters {
      result := Failure(ClusterNotFound(context.cluster));
      return;
    }
    var cluster: Cluster := config.clusters[context.cluster];
    if context.authInfo !in config.authInfos {
      result := Failure(UserNotFound(context.authInfo));
      return;
    }
    var user: AuthInfo := config.authInfos[context.authInfo];
    assert cluster == ClusterOf(s, contextName) && user == AuthInfoOf(s, contextName);

    contacted := TargetHost(sshHost, cluster.server);
    if contacted.None? {
      result := Failure(InvalidServerURL(contextName));
      return;
    }
    var fetched := env.fetch(SshDestination(sshUser, contacted.value));
    if fetched.Failure? {
      result := Failure(FetchFailed(fetched.error));
      return;
    }
    var parsed := env.parse(fetched.value);
    if parsed.Failure? {
      result := Failure(ParseFailed(parsed.error));
      return;
    }
    written, result := MergeAndWrite(config, cluster, user, contacted.value, parsed.value, env.writeError);
  }

  /** The in-place merge of a parsed remote document into the resolved
      records, then the write when something changed. */
  method MergeAndWrite(config: Config, cluster: Cluster, user: AuthInfo, host: string,
                       remote: RemoteConfig, writeError: Option<string>)
    returns (written: bool, result: Result<Report, SyncError>)
    requires cluster in config.clusters.Values && user in config.authInfos.Values
    modifies cluster`certificateAuthorityData, user`clientCertificateData, user`clientKeyData
    ensures Step(Some(host), written, result, SnapshotOf(config))
            == MergeStep(old(SnapshotOf(config)), cluster, user, host, remote, writeError)
  {
    written := MergeInto(config, cluster, user, remote);
    if !written {
      result := Success(AlreadyUpToDate);
    } else if writeError.Some? {
      result := Failure(WriteFailed(writeError.value));
    } else {
      result := Success(Updated);
    }
  }

  /** The merge seen on the configuration's value: the resolved cluster's CA
      data and the resolved user's credentials become the `Merge` values,
      and nothing else changes. */
  method MergeInto(config: Config, cluster: Cluster, user: AuthInfo, remote: RemoteConfig)
    returns (updateNeeded: bool)
    requires cluster in config.clusters.Values && user in config.authInfos.Values
    modifies cluster`certificateAuthorityData, user`clientCertificateData, user`clientKeyData
    ensures var s := old(SnapshotOf(config));
            var m := Merge(s.caData[cluster], s.credentials[user].clientCertificateData,
                           s.credentials[user].clientKeyData, remote);
            && SnapshotOf(config) == s.(caData := s.caData[cluster := m.caData],
                                        credentials := s.credentials[user := Credentials(m.certData, m.keyData)])
            && updateNeeded == m.updateNeeded
  {
    var caChanged := ClusterInto(config, cluster, remote.clusters);
    var userChanged := AuthInfoInto(config, user, remote.authInfos);
    updateNeeded := caChanged || userChanged;
  }

  /** The loop over the remote clusters, seen on the configuration's value. */
  method ClusterInto(config: Config, cluster: Cluster, remoteClusters: seq<RemoteCluster>)
    returns (changed: bool)
    requires cluster in config.clusters.Values
    modifies cluster`certificateAuthorityData
    ensures var s := old(SnapshotOf(config));
            var f := MergeField(s.caData[cluster], CAData(remoteClusters));
            SnapshotOf(config) == s.(caData := s.caData[cluster := f.value]) && changed == f.changed
  {
    ghost var s := SnapshotOf(config);
    changed := MergeClusters(cluster, remoteClusters);
    ghost var t := SnapshotOf(config);
    forall c | c in t.caData && c != cluster
      ensures t.caData[c] == s.caData[c]
    {
      assert c.certificateAuthorityData == old(c.certificateAuthorityData);
    }
    assert t.servers == s.servers;
    assert t.credentials == s.credentials;
    OnlyCADataDiffers(s, t, cluster, cluster.certificateAuthorityData);
  }

  /** The loop over the remote users, seen on the configuration's value. */
  method AuthInfoInto(config: Config, user: AuthInfo, remoteUsers: seq<Credentials>)
    returns (changed: bool)
    requires user in config.authInfos.Values
    modifies user`clientCertificateData, user`clientKeyData
    ensures var s := old(SnapshotOf(config));
            var cert := MergeField(s.credentials[user].clientCertificateData, CertData(remoteUsers));
            var key := MergeField(s.credentials[user].clientKeyData, KeyData(remoteUsers));
            && SnapshotOf(config) == s.(credentials := s.credentials[user := Credentials(cert.value, key.value)])
            && changed == (cert.changed || key.changed)
  {
    ghost var s := SnapshotOf(config);
    ghost var cert0, key0 := user.clientCertificateData, user.clientKeyData;
    assert s.credentials[user] == Credentials(cert0, key0);
    changed := MergeAuthInfos(user, remoteUsers);
    ghost var merged := Credentials(user.clientCertificateData, user.clientKeyData);
    assert merged == Credentials(MergeField(cert0, CertData(remoteUsers)).value,
                                MergeField(key0, KeyData(remoteUsers)).value);
    ghost var t := SnapshotOf(config);
    forall u | u in t.credentials && u != user
      ensures t.credentials[u] == s.credentials[u]
    {
      assert u.clientCertificateData == old(u.clientCertificateData);
      assert u.clientKeyData == old(u.clientKeyData);
    }
    assert t.servers == s.servers;
    assert t.caData == s.caData;
    OnlyCredentialsDiffer(s, t, user, merged);
  }

  /** Two snapshots that agree on every part but one cluster's CA data. */
  lemma OnlyCADataDiffers(s: Snapshot, t: Snapshot, cluster: Cluster, caData: Bytes)
    requires t.clusters == s.clusters && t.authInfos == s.authInfos && t.contexts == s.contexts
    requires t.servers == s.servers && t.credentials == s.credentials
    requires cluster in t.caData && t.caData[cluster] == caData
    requires t.caData.Keys == s.caData.Keys
    requires forall c :: c in t.caData && c != cluster ==> t.caData[c] == s.caData[c]
    ensures t == s.(caData := s.caData[cluster := caData])
  {
    assert t.caData == s.caData[cluster := caData];
  }

  /** Two snapshots that agree on every part but one user's credentials. */
  lemma OnlyCredentialsDiffer(s: Snapshot, t: Snapshot, user: AuthInfo, merged: Credentials)
    requires t.clusters == s.clusters && t.authInfos == s.authInfos && t.contexts == s.contexts
    requires t.servers == s.servers && t.caData == s.caData
    requires user in t.credentials && t.credentials[user] == merged
    requires t.credentials.Keys == s.credentials.Keys
    requires forall u :: u in t.credentials && u != user ==> t.credentials[u] == s.credentials[u]
    ensures t == s.(credentials := s.credentials[user := merged])
  {
    assert t.credentials == s.credentials[user := merged];
  }

  /** The loop over the remote clusters. */
  method MergeClusters(cluster: Cluster, remoteClusters: seq<RemoteCluster>) returns (changed: bool)
    modifies cluster`certificateAuthorityData
    ensures var f := MergeField(old(cluster.certificateAuthorityData), CAData(remoteClusters));
            cluster.certificateAuthorityData == f.value && changed == f.changed
  {
    changed := false;
    ghost var caData := cluster.certificateAuthorityData;
    ghost var cas := CAData(remoteClusters);
    for i := 0 to |remoteClusters|
      invariant var f := MergeField(caData, cas[..i]);
                cluster.certificateAuthorityData == f.value && changed == f.changed
    {
      assert cas[..i + 1][..i] == cas[..i];
      var remoteCluster := remoteClusters[i];
      if cluster.certificateAuthorityData != remoteCluster.certificateAuthorityData {
        cluster.certificateAuthorityData := remoteCluster.certificateAuthorityData;
        changed := true;
      }
    }
    assert cas[..|remoteClusters|] == cas;
  }

  /** The loop over the remote users: certificate and key are compared and
      copied independently. */
  method MergeAuthInfos(user: AuthInfo, remoteUsers: seq<Credentials>) returns (changed: bool)
    modifies user`clientCertificateData, user`clientKeyData
    ensures var cert := MergeField(old(user.clientCertificateData), CertData(remoteUsers));
            var key := MergeField(old(user.clientKeyData), KeyData(remoteUsers));
            && user.clientCertificateData == cert.value
            && user.clientKeyData == key.value
            && changed == (cert.changed || key.changed)
  {
    changed := false;
    ghost var certData, keyData := user.clientCertificateData, user.clientKeyData;
    ghost var certs, keys := CertData(remoteUsers), KeyData(remoteUsers);
    for i := 0 to |remoteUsers|
      invariant var cert := MergeField(certData, certs[..i]);
                var key := MergeField(keyData, keys[..i]);
                && user.clientCertificateData == cert.value
                && user.clientKeyData == key.value
                && changed == (cert.changed || key.changed)
    {
      assert certs[..i + 1][..i] == certs[..i];
      assert keys[..i + 1][..i] == keys[..i];
      var remoteUser := remoteUsers[i];
      if user.clientCertificateData != remoteUser.clientCertificateData {
        user.clientCertificateData := remoteUser.clientCertificateData;
        changed := true;
      }
      if user.clientKeyData != remoteUser.clientKeyData {
        user.clientKeyData := remoteUser.clientKeyData;
        changed := true;
      }
    }
    assert certs[..|remoteUsers|] == certs;
    assert keys[..|remoteUsers|] == keys;
  }

  /** Syncing the same context twice against a remote kubeconfig with one
      cluster and one user: the second sync finds nothing to do and does not
      write. */
  method SyncTwice(config: Config, contextName: string, sshUser: string, sshHost: string,
                   text: string, remote: RemoteConfig, env: Env)
    returns (first: Result<Report, SyncError>, second: Result<Report, SyncError>, secondWritten: bool)
    requires Resolves(SnapshotOf(config), contextName)
    requires TargetHost(sshHost, ClusterOf(SnapshotOf(config), contextName).server).Some?
    requires env.fetch(SshDestination(sshUser, TargetHost(sshHost, ClusterOf(SnapshotOf(config), contextName).server).value))
             == Success(text)
    requires env.parse(text) == Success(remote)
    requires env.writeError == None
    requires |remote.clusters| == 1 && |remote.authInfos| == 1
    modifies config.clusters.Values, config.authInfos.Values
    ensures first.Success?
    ensures second == Success(AlreadyUpToDate) && !secondWritten
  {
    SyncStepTwice(SnapshotOf(config), contextName, sshUser, sshHost, text, remote, env);
    var _, _, r1 := SyncContext(config, contextName, sshUser, sshHost, env);
    first := r1;
    var _, w2, r2 := SyncContext(config, contextName, sshUser, sshHost, env);
    second, secondWritten := r2, w2;
  }

  // ---------------------------------------------------------------------
  // The command's Run closure
  // ---------------------------------------------------------------------

  /** Which context a plain `sync` works on: the argument when one is given,
      otherwise the only context of the file; with no argument and zero or
      several contexts it is a usage error. */
  method SelectContext(contexts: map<string, Context>, args: seq<string>) returns (r: Result<string, SyncError>)
    requires |args| <= 1
    ensures |args| == 1 ==> r == Success(args[0])
    ensures |args| == 0 && |contexts| == 1 ==> r.Success? && contexts.Keys == {r.value}
    ensures |args| == 0 && |contexts| != 1 ==> r == Failure(NoContextChosen)
  {
    if |args| == 0 {
      if |contexts| == 1 {
        var name :| name in contexts;
        assert contexts.Keys - {name} == {} by {
          assert |contexts.Keys - {name}| == |contexts.Keys| - 1;
        }
        r := Success(name);
      } else {
        r := Failure(NoContextChosen);
      }
    } else {
      r := Success(args[0]);
    }
  }

  /** Where a run of syncs ends: the configuration's value, how many
      contexts were handed to syncContext, and the error that stopped the
      run, if any. */
  datatype RunOutcome = RunOutcome(after: Snapshot, processed: nat, failure: Option<SyncError>)

  /** Syncing `names` in order, starting from `s`; the first failure ends
      the run (the source exits the process there). */
  function RunAll(s: Snapshot, names: seq<string>, sshUser: string, sshHost: string, env: Env): (r: RunOutcome)
    requires Covers(s)
    ensures Covers(r.after) && r.processed <= |names|
    ensures r.failure.None? ==> r.processed == |names|
    ensures r.failure.Some? ==> r.processed > 0
    decreases |names|
  {
    if names == [] then RunOutcome(s, 0, None)
    else
      var step := SyncStep(s, names[0], sshUser, sshHost, env);
      if step.result.Failure? then RunOutcome(step.after, 1, Some(step.result.error))
      else
        var rest := RunAll(step.after, names[1..], sshUser, sshHost, env);
        RunOutcome(rest.after, rest.processed + 1, rest.failure)
  }

  /** A run that got through `names` without failing continues with one
      more sync from where it ended. */
  lemma {:induction false} RunAllExtend(s: Snapshot, names: seq<string>, name: string,
                                        sshUser: string, sshHost: string, env: Env)
    requires Covers(s)
    requires RunAll(s, names, sshUser, sshHost, env).failure.None?
    ensures var r := RunAll(s, names, sshUser, sshHost, env);
            var step := SyncStep(r.after, name, sshUser, sshHost, env);
            RunAll(s, names + [name], sshUser, sshHost, env)
            == RunOutcome(step.after, |names| + 1,
                          if step.result.Failure? then Some(step.result.error) else None)
    decreases |names|
  {
    if names == [] {
      assert [name][1..] == [];
    } else {
      var first := SyncStep(s, names[0], sshUser, sshHost, env);
      assert (names + [name])[1..] == names[1..] + [name];
      RunAllExtend(first.after, names[1..], name, sshUser, sshHost, env);
    }
  }

  /** The run stops at its first failure: the contexts after the failing
      one play no part, and every run over a shorter prefix succeeded. */
  lemma {:induction false} RunAllStopsAtFailure(s: Snapshot, names: seq<string>,
                                                sshUser: string, sshHost: string, env: Env)
    requires Covers(s)
    ensures var r := RunAll(s, names, sshUser, sshHost, env);
            && RunAll(s, names[..r.processed], sshUser, sshHost, env) == r
            && forall k :: 0 <= k < r.processed ==>
                 RunAll(s, names[..k], sshUser, sshHost, env).failure.None?
    decreases |names|
  {
    var r := RunAll(s, names, sshUser, sshHost, env);
    if names != [] {
      var step := SyncStep(s, names[0], sshUser, sshHost, env);
      assert names[..0] == [];
      if step.result.Failure? {
        assert names[..1][1..] == [];
      } else {
        var rest := RunAll(step.after, names[1..], sshUser, sshHost, env);
        RunAllStopsAtFailure(step.after, names[1..], sshUser, sshHost, env);
        assert names[..r.processed][1..] == names[1..][..rest.processed];
        forall k | 0 < k < r.processed
          ensures RunAll(s, names[..k], sshUser, sshHost, env).failure.None?
        {
          assert names[..k][1..] == names[1..][..k - 1];
        }
      }
    }
  }

  /** A run adds, removes and renames nothing and keeps every server URL;
      a cluster or user that no context of the run resolves to keeps its
      fields. */
  lemma {:induction false} RunAllFrame(s: Snapshot, names: seq<string>,
                                       sshUser: string, sshHost: string, env: Env)
    requires Covers(s)
    ensures var t := RunAll(s, names, sshUser, sshHost, env).after;
            && t.clusters == s.clusters && t.authInfos == s.authInfos
            && t.contexts == s.contexts && t.servers == s.servers
            && t.caData.Keys == s.caData.Keys && t.credentials.Keys == s.credentials.Keys
            && (forall c :: c in s.caData && (forall n :: n in names ==> !(Resolves(s, n) && c == ClusterOf(s, n))) ==>
                  t.caData[c] == s.caData[c])
            && (forall u :: u in s.credentials && (forall n :: n in names ==> !(Resolves(s, n) && u == AuthInfoOf(s, n))) ==>
                  t.credentials[u] == s.credentials[u])
    decreases |names|
  {
    if names != [] {
      var step := SyncStep(s, names[0], sshUser, sshHost, env);
      SyncStepFrame(s, names[0], sshUser, sshHost, env);
      if step.result.Success? {
        RunAllFrame(step.after, names[1..], sshUser, sshHost, env);
        forall n | n in names[1..]
          ensures Resolves(step.after, n) == Resolves(s, n)
        {
        }
      }
    }
  }

  /** The `sync` command once the local file is loaded. `synced` lists the
      contexts handed to syncContext, in order; `failure` is the error that
      ends the process with exit status 1, if any. Without `--all` the
      selected context is synced; with `--all` every context is, once each,
      in map order, and the first failure stops the run. */
  method Run(config: Config, args: seq<string>, syncAll: bool, sshUser: string, sshHost: string, env: Env)
    returns (synced: seq<string>, failure: Option<SyncError>)
    requires |args| <= 1
    modifies config.clusters.Values, config.authInfos.Values
    ensures unchanged(config)
    ensures synced != [] ==>
              RunAll(old(SnapshotOf(config)), synced, sshUser, sshHost, env)
              == RunOutcome(SnapshotOf(config), |synced|, failure)
    ensures synced == [] ==> SnapshotOf(config) == old(SnapshotOf(config))
    ensures !syncAll && |args| == 1 ==> synced == [args[0]]
    ensures !syncAll && |args| == 0 && |config.contexts| == 1 ==>
              |synced| == 1 && config.contexts.Keys == {synced[0]}
    ensures !syncAll && |args| == 0 && |config.contexts| != 1 ==>
              synced == [] && failure == Some(NoContextChosen)
    ensures syncAll ==> failure.None? || synced != []
    ensures syncAll ==> forall i, j :: 0 <= i < j < |synced| ==> synced[i] != synced[j]
    ensures syncAll ==> forall n :: n in synced ==> n in config.contexts
    ensures syncAll && failure.None? ==> forall n :: n in config.contexts ==> n in synced
  {
    if syncAll {
      synced, failure := SyncAll(config, sshUser, sshHost, env);
    } else {
      synced, failure := SyncSelected(config, args, sshUser, sshHost, env);
    }
  }

  /** Without `--all`: syncContext for the context `SelectContext` picks, or
      nothing on a usage error. */
  method SyncSelected(config: Config, args: seq<string>, sshUser: string, sshHost: string, env: Env)
    returns (synced: seq<string>, failure: Option<SyncError>)
    requires |args| <= 1
    modifies config.clusters.Values, config.authInfos.Values
    ensures unchanged(config)
    ensures synced != [] ==>
              RunAll(old(SnapshotOf(config)), synced, sshUser, sshHost, env)
              == RunOutcome(SnapshotOf(config), |synced|, failure)
    ensures synced == [] ==> SnapshotOf(config) == old(SnapshotOf(config))
    ensures |args| == 1 ==> synced == [args[0]]
    ensures |args| == 0 && |config.contexts| == 1 ==>
              |synced| == 1 && config.contexts.Keys == {synced[0]}
    ensures |args| == 0 && |config.contexts| != 1 ==>
              synced == [] && failure == Some(NoContextChosen)
  {
    synced, failure := [], None;
    var selected := SelectContext(config.contexts, args);
    if selected.Failure? {
      failure := Some(selected.error);
      return;
    }
    var _, _, result := SyncContext(config, selected.value, sshUser, sshHost, env);
    synced := [selected.value];
    assert synced[1..] == [];
    if result.Failure? {
      failure := Some(result.error);
    }
  }

  /** `--all`: syncContext for every context, in map order, stopping at the
      first failure. */
  method SyncAll(config: Config, sshUser: string, sshHost: string, env: Env)
    returns (synced: seq<string>, failure: Option<SyncError>)
    modifies config.clusters.Values, config.authInfos.Values
    ensures unchanged(config)
    ensures RunAll(old(SnapshotOf(config)), synced, sshUser, sshHost, env)
            == RunOutcome(SnapshotOf(config), |synced|, failure)
    ensures forall i, j :: 0 <= i < j < |synced| ==> synced[i] != synced[j]
    ensures forall n :: n in synced ==> n in config.contexts
    ensures failure.None? ==> forall n :: n in config.contexts ==> n in synced
  {
    var order := RangeOrder(config.contexts);
    var i;
    i, failure := SyncInOrder(config, sshUser, sshHost, env, order);
    synced := order[..i];
    PrefixOfOrder(config.contexts, order, i);
  }

  /** The `--all` loop over the names in `order`: it stops after the first
      context that fails, and runs to the end when none does. */
  method SyncInOrder(config: Config, sshUser: string, sshHost: string, env: Env, order: seq<string>)
    returns (i: nat, failure: Option<SyncError>)
    modifies config.clusters.Values, config.authInfos.Values
    ensures unchanged(config)
    ensures i <= |order| && (failure.None? ==> i == |order|)
    ensures RunAll(old(SnapshotOf(config)), order[..i], sshUser, sshHost, env)
            == RunOutcome(SnapshotOf(config), i, failure)
  {
    ghost var s := SnapshotOf(config);
    failure := None;
    i := 0;
    assert order[..0] == [];
    while i < |order| && failure.None?
      invariant i <= |order|
      invariant RunAll(s, order[..i], sshUser, sshHost, env) == RunOutcome(SnapshotOf(config), i, failure)
    {
      failure := SyncNext(config, sshUser, sshHost, env, s, order, i);
      i := i + 1;
    }
  }

  /** The contexts visited before the loop stopped: distinct names of the
      file, and all of them when the loop ran to the end. */
  lemma PrefixOfOrder(contexts: map<string, Context>, order: seq<string>, i: nat)
    requires i <= |order|
    requires forall i, j :: 0 <= i < j < |order| ==> order[i] != order[j]
    requires forall n :: n in order <==> n in contexts
    ensures forall j, k :: 0 <= j < k < i ==> order[..i][j] != order[..i][k]
    ensures forall n :: n in order[..i] ==> n in contexts
    ensures i == |order| ==> forall n :: n in contexts ==> n in order[..i]
  {
    assert i == |order| ==> order[..i] == order;
  }

  /** One more context in the `--all` loop: the run over the first `i`
      names of `order`, extended by the next one. */
  method SyncNext(config: Config, sshUser: string, sshHost: string, env: Env,
                  ghost s: Snapshot, order: seq<string>, i: nat)
    returns (failure: Option<SyncError>)
    requires Covers(s) && i < |order|
    requires RunAll(s, order[..i], sshUser, sshHost, env) == RunOutcome(SnapshotOf(config), i, None)
    modifies config.clusters.Values, config.authInfos.Values
    ensures unchanged(config)
    ensures RunAll(s, order[..i + 1], sshUser, sshHost, env)
            == RunOutcome(SnapshotOf(config), i + 1, failure)
  {
    ghost var prefix, t := order[..i], SnapshotOf(config);
    RunAllExtend(s, prefix, order[i], sshUser, sshHost, env);
    assert order[..i + 1] == prefix + [order[i]];
    var contacted, written, result := SyncContext(config, order[i], sshUser, sshHost, env);
    assert Step(contacted, written, result, SnapshotOf(config)) == SyncStep(t, order[i], sshUser, sshHost, env);
    failure := if result.Failure? then Some(result.error) else None;
  }

  /** The order in which `range` visits the contexts: every name once. */
  method RangeOrder(contexts: map<string, Context>) returns (order: seq<string>)
    ensures forall i, j :: 0 <= i < j < |order| ==> order[i] != order[j]
    ensures forall n :: n in order <==> n in contexts
  {
    order := ContextNames(contexts);
    ContextNamesDistinct(contexts, order);
  }

}
