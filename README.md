# kctxsync in Dafny

kctxsync is a small command-line tool. It keeps the TLS material of a local
kubeconfig in step with the kubeconfig stored on the cluster's own host. It
has two commands worth modelling:

- `sync [context]` resolves a context to its cluster and its user. It
  derives the host to reach from the cluster's server URL, or takes it from
  the `--ssh` override. It fetches the remote kubeconfig over ssh and parses
  it. It then copies three byte fields into the local records in place: the
  cluster's `certificate-authority-data`, and the user's
  `client-certificate-data` and `client-key-data`. The file is rewritten
  exactly when some remote value differed from the local field when they
  were compared. When several remote records of one kind disagree, the file
  is rewritten on every run, even if the fields end as they started. With `--all` it does this for every
  context and stops at the first failure. Without an argument it picks the
  file's only context, or fails if there are zero or several.
- `get` lists the context names in ascending order under a header line.

The model is made of five files:

- `wrappers.dfy` (`Wrappers`) holds `Option` and `Result`. Every
  print-and-`os.Exit(1)` path after the configuration is loaded becomes a
  `Failure`.
- `kubeconfig.dfy` (`KubeConfig`) models client-go's `api.Config`. The maps
  hold `*Cluster` and `*AuthInfo` pointers, so clusters and users are
  classes. A write through one name is therefore seen through every name
  that maps to the same record. Contexts are never written, so they are
  values. A parsed remote kubeconfig is a value: its cluster and user
  records, each as a sequence in the order the `range` loops visit them.
  `Snapshot` is the value of a configuration at one moment: its maps and
  the fields of every record, keyed by the record, so records shared by
  several names stay shared. `ContextNames` is the `range` loop that
  collects the context keys.
- `gostrings.dfy` (`GoStrings`) models the Go library calls the commands
  use: `strings.TrimPrefix`, `strings.Split(s, ":")[0]`, Go's string order
  and `sort.Strings`.
- `sync.dfy` (`Sync`) models `cmd/sync.go`. The host derivation is a pure
  function. The merge is specified by the pure function `Merge`. One
  `syncContext` call is specified on snapshots by `SyncStep`, and a run of
  calls that stops at the first failure by `RunAll`. The methods
  `SyncContext`, `SyncSelected`, `SyncAll` and `Run` follow the source's
  control flow on the objects. Each of them is proved equal to those
  functions on the snapshot before and after. `SelectContext` states the
  selection rule of cmd/sync.go:49-62 directly.
- `get.dfy` (`Get`) models `cmd/get.go`. It collects the keys, sorts an
  array in place and produces the printed lines.

The collaborators the code calls but does not define are the fields of an
`Env` value:

- the ssh fetch (`getRemoteKubeconfig`) is a function from `user@host` to
  the document text or an error;
- the parser (`clientcmd.Load`) is a function from text to a parsed remote
  config or an error;
- the writer (`clientcmd.WriteToFile`) is given as the error it returns, if
  any.

Only `https://` is stripped, so `http://h:80` yields the host `http`.
`--all` stops at the first failing context.

## Model

| member | source | states |
|---|---|---|
| `Sync.SyncStep` | cmd/sync.go:71-159 | One `syncContext` call on the configuration's value. Its contract states that every record reachable from the maps still has its fields, and that a sync which does not write leaves the value unchanged. `SyncStepResolution`, `SyncStepHost`, `SyncStepRemoteFailures`, `SyncStepMerge`, `SyncStepFrame` and `SyncStepTwice` characterise it. |
| `Sync.MergeStep` | cmd/sync.go:123-158 | The part of `syncContext` after a successful parse. The host was contacted. When nothing is written, the value is unchanged and the report is `AlreadyUpToDate`. `SyncStepMerge` gives the new field values and the report otherwise. |
| `Sync.RunAll` | cmd/sync.go:41-45 | Syncing a list of contexts in order, ending the run at the first failure. At most all the names are processed, all of them when there is no failure, and a failure comes after at least one name. `RunAllExtend`, `RunAllStopsAtFailure` and `RunAllFrame` characterise it. |
| `Sync.Merge` | cmd/sync.go:124-145 | The three field merges and `updateNeeded`. When no update is needed, all three fields keep their local values. `MergeSpec`, `MergeTwice` and `MergeIdempotentSingle` characterise it. |
| `Sync.MergeField` | cmd/sync.go:126-132 | One overwrite-if-different loop over remote values. The result is the local value or one of the remote values. `MergeFieldSpec` gives the last-wins value and the exact change condition. |
| `Sync.SyncContext` | cmd/sync.go:71-159 | The outputs and the configuration's new value are exactly what `SyncStep` gives for its old value: which host was contacted, whether the file was written, the report or error, and the new record fields. The configuration's maps are not reassigned. |
| `Sync.SyncStepResolution` | cmd/sync.go:73-93 | Resolution runs context, then cluster, then user, each with its own error. A resolution failure contacts no host, writes nothing and changes nothing. |
| `Sync.SyncStepHost` | cmd/sync.go:95-106 | The host contacted is the one `TargetHost` derives. When there is none, the sync fails with `InvalidServerURL`, writes nothing and changes nothing. |
| `Sync.SyncStepRemoteFailures` | cmd/sync.go:108-121 | The fetch goes to `user@host`. A failed fetch is reported as `FetchFailed` and a failed parse as `ParseFailed`, each with its reason, and neither writes or changes anything. |
| `Sync.SyncStepMerge` | cmd/sync.go:123-158 | Once the remote document is parsed, the resolved cluster's CA data and the resolved user's certificate and key take the `Merge` values. The file is written exactly when `Merge` reports `updateNeeded`. The report is `AlreadyUpToDate` without an update, `WriteFailed` when the write fails, and `Updated` otherwise. |
| `Sync.SyncStepFrame` | cmd/sync.go:71-159 | A sync adds, removes and renames nothing and keeps every server URL. No cluster or user other than the resolved ones changes, including records reached through other names. |
| `Sync.SyncStepTwice` | cmd/sync.go:71-159 | Against a remote kubeconfig with one cluster and one user, a first sync succeeds, and a second one reports already up to date, writes nothing and changes nothing. |
| `Sync.SyncTwice` | cmd/sync.go:71-159 | Two `SyncContext` calls on one context against a remote kubeconfig with one cluster and one user: the first succeeds, and the second reports already up to date and does not write. |
| `Sync.MergeAndWrite` | cmd/sync.go:123-158 | The in-place merge followed by the write decision gives the configuration value, write flag and report that `MergeStep` specifies. |
| `Sync.MergeInto` | cmd/sync.go:123-145 | After both merge loops, the configuration's value differs from the old one only in the resolved cluster's CA data and the resolved user's credentials, which take the `Merge` values. The flag is `Merge`'s `updateNeeded`. |
| `Sync.ClusterInto` | cmd/sync.go:126-132 | The loop over remote clusters changes only the resolved cluster's CA data in the configuration's value, to `MergeField` of the old value and the remote CA values. |
| `Sync.AuthInfoInto` | cmd/sync.go:134-145 | The loop over remote users changes only the resolved user's credentials in the configuration's value. Certificate and key each become `MergeField` of their old value and the remote values. |
| `Sync.MergeClusters` | cmd/sync.go:126-132 | The loop over remote clusters leaves the CA data equal to `MergeField` of the old value and the remote CA values. It reports a change exactly as `MergeField` does. |
| `Sync.MergeAuthInfos` | cmd/sync.go:134-145 | The loop over remote users updates certificate and key independently, each to `MergeField` of its old value and the remote values. It reports a change when either one changed. |
| `Sync.MergeFieldSpec` | cmd/sync.go:126-132 | After the overwrite-if-different loop, the field holds the last remote value, or the local one when there is none. The change flag is set exactly when some remote value differs from the starting local value. |
| `Sync.MergeSpec` | cmd/sync.go:124-145 | The CA data becomes the last remote cluster's CA data, and the certificate and key become the last remote user's. Each field stays as it was when there is no remote record of its kind. `updateNeeded` holds exactly when some remote CA, certificate or key differs from the local one. |
| `Sync.MergeTwice` | cmd/sync.go:124-158 | Merging the same remote document again keeps all three fields. It reports an update exactly when the remote records of one kind disagree with the last-wins value. |
| `Sync.MergeIdempotentSingle` | cmd/sync.go:124-158 | With exactly one remote cluster and one remote user, a second merge changes nothing and reports no update, so no second write happens. |
| `Sync.MergeExample` | cmd/sync.go:124-145 | Local CA `01`, certificate `02` and key `03`, merged with remote CA `AA`, certificate `02` and key `BB`, give CA `AA`, certificate `02`, key `BB` and an update. |
| `Sync.MergeRewritesUnchanged` | cmd/sync.go:124-132 | A local CA `0A` with remote CA values `0B` then `0A` is overwritten twice and reports an update, so the file is rewritten although the CA data ends as `0A`. |
| `Sync.SshDestination` | cmd/sync.go:163 | The destination is the user, then `@`, then the host. |
| `Sync.ServerHost` | cmd/sync.go:99-101 | The host is a prefix of the URL after one leading `https://` is removed. It contains no `:`, and it ends where the first `:` is, or at the end of the text. |
| `Sync.TargetHost` | cmd/sync.go:95-106 | A non-empty override is the host, verbatim. A derived host is never empty. |
| `Sync.TargetHostFailsIff` | cmd/sync.go:96-105 | Without an override, derivation fails exactly when the URL, after removing one leading `https://`, is empty or starts with `:`. Otherwise the host is `ServerHost` of the URL. |
| `Sync.OverrideIgnoresServer` | cmd/sync.go:96-97 | With a non-empty override, the server URL has no effect on the host. |
| `Sync.ServerHostWithSchemeAndPort` | cmd/sync.go:99-101 | `https://10.0.0.5:6443` gives `10.0.0.5`. |
| `Sync.ServerHostBare` | cmd/sync.go:99-101 | `10.0.0.5` gives `10.0.0.5`. |
| `Sync.ServerHostOtherScheme` | cmd/sync.go:99-101 | `http://h:80` gives `http`, because only `https://` is stripped. |
| `Sync.ServerHostSchemeTwice` | cmd/sync.go:99 | `https://https://h:1` gives `https`, because only one leading `https://` is removed. |
| `Sync.EmptyHostExamples` | cmd/sync.go:102-105 | `""`, `https://` and `:6443` are rejected when there is no override. |
| `Sync.SelectContext` | cmd/sync.go:47-63 | An explicit argument is used as given. With no argument and exactly one context, that context is chosen. With no argument and zero or several contexts, the result is a usage error. |
| `Sync.RunAllExtend` | cmd/sync.go:41-45 | A run that got through some contexts without failing continues with one more sync from the value where it ended, and that sync's error, if any, ends it. |
| `Sync.RunAllStopsAtFailure` | cmd/sync.go:41-45 | A run ends at its first failure: the contexts after the failing one play no part, and the run over every shorter prefix succeeded. |
| `Sync.RunAllFrame` | cmd/sync.go:41-45 | A run adds, removes and renames nothing and keeps every server URL. A cluster or user that no context of the run resolves to keeps its fields. |
| `Sync.Run` | cmd/sync.go:27-67 | When some context was synced, the configuration's new value and the error that ends the process are what `RunAll` gives for the synced contexts, in order. Otherwise nothing changed. Without `--all`, exactly the selected context is synced, or nothing on a usage error. With `--all`, the synced contexts are distinct keys of the file, all of them when no failure occurred. |
| `Sync.SyncSelected` | cmd/sync.go:47-65 | Without `--all`: the argument, or else the only context, is synced, and the new value and error are what `RunAll` gives for it. With no argument and zero or several contexts, nothing changes and the error is `NoContextChosen`. |
| `Sync.SyncAll` | cmd/sync.go:41-45 | The contexts synced are distinct keys of the file, visited in map order. The new value and the error are what `RunAll` gives for them, so every sync before the last succeeded and the last one's error is `failure`. Every context has been synced when none failed. |
| `Sync.SyncInOrder` | cmd/sync.go:42-45 | The loop over a visiting order stops after the first failing context, and reaches the end when none fails. The new value and the error are what `RunAll` gives for the contexts it visited. |
| `Sync.SyncNext` | cmd/sync.go:43-44 | One more turn of the `--all` loop extends a run that has not failed by one `SyncContext` call, as `RunAll` does. |
| `Sync.RangeOrder` | cmd/sync.go:42 | The order the `range` loop visits the contexts in holds every key exactly once. |
| `Sync.PrefixOfOrder` | cmd/sync.go:42-45 | The contexts visited before the loop stopped are distinct keys of the file, and all of them when the loop reached the end. |
| `KubeConfig.SnapshotOf` | cmd/sync.go:83-89 | The snapshot holds the configuration's maps and, for every record they reach, that record's server, CA data and credentials. |
| `KubeConfig.ContextNames` | cmd/get.go:36-39 | The collected names are the keys of `Contexts`, each exactly once, whatever order the map is visited in. |
| `KubeConfig.ContextNamesDistinct` | cmd/get.go:36-39 | A list holding the keys exactly once has no repeated name, and it contains exactly the keys of `Contexts`. |
| `Get.ListContexts` | cmd/get.go:36-48 | The names are every context key exactly once, in ascending order. The output is the header followed by one `- name` line per name, in that order. An empty map gives only the header. |
| `Get.ListingIndependentOfOrder` | cmd/get.go:36-42 | Any two name lists meeting `ListContexts`' contract are equal, so the listing does not depend on the map's iteration order. |
| `Get.ListingExample` | cmd/get.go:36-42 | Contexts `b` and `a` are listed as `a`, `b`. |
| `GoStrings.TrimPrefix` | cmd/sync.go:99 | When the prefix is present, it followed by the result is the input. Otherwise the input is returned unchanged. |
| `GoStrings.FirstField` | cmd/sync.go:101 | The result is a prefix of the input that contains no separator. It is either the whole input or is followed by a separator. |
| `GoStrings.FirstFieldBefore` | cmd/sync.go:101 | For a text without a separator followed by a tail, the first field is that text exactly when the tail is empty or starts with the separator. |
| `GoStrings.LessEqLexicographic` | cmd/get.go:42 | Go's string order is lexicographic: `a` comes first exactly when it is a prefix of `b`, or has the smaller character at the first position where they differ. |
| `GoStrings.SortStrings` | cmd/get.go:42 | After sorting in place, the array is in ascending order and is a permutation of its old contents. |
| `GoStrings.SortedUnique` | cmd/get.go:42 | Two ascending sequences with the same elements and multiplicities are equal. |
| `GoStrings.LessEqTotal` | cmd/get.go:42 | Any two strings are comparable. |
| `GoStrings.LessEqTransitive` | cmd/get.go:42 | String order is transitive. |
| `GoStrings.LessEqAntisymmetric` | cmd/get.go:42 | Strings that are each ordered before the other are equal. |
| `GoStrings.LessEqReflexive` | cmd/get.go:42 | Every string is ordered before itself. |

## Left out

- Spawning `ssh` and formatting its error with the captured stderr (cmd/sync.go:162-175) are not modelled. The fetch is a parameter that returns the document text or an error text.
- The fetch parameter is a fixed function of `user@host` for the whole run. The model does not capture a remote file that changes between the contexts of one `--all` run.
- The write's error is one fixed value for every write of an `--all` run. The model does not capture a run where one write succeeds and a later one fails.
- `clientcmd.LoadFromFile`, `clientcmd.Load` and `clientcmd.WriteToFile` are not modelled. Both commands start from an already loaded config, so the load failure that exits before any work is not modelled. Parsing is a parameter, and the write is the error it returns.
- The YAML format and the fields of `api.Cluster`, `api.AuthInfo` and `api.Context` that the tool never touches are left out. The commands leave them untouched.
- After a failed write, the in-memory records keep the merged values, and the process exits. The model reports `WriteFailed` with the records changed and nothing more.
- Cobra command and flag registration, the `$HOME/.kube/config` default path, cmd/root.go and cmd/version.go are left out. They are wiring with no decision logic.
- The progress messages that `sync` prints are left out. Only their decisions are modelled: errors, which host is contacted, whether the file is written, and the report.
- Go's random map iteration order is modelled by choosing any remaining key at each step. The remote records are taken in a given sequence order.
- `sort.Strings` is Go's pattern-defeating quicksort, which is not part of this model. Insertion sort stands in for it. By `GoStrings.SortedUnique`, the sorted result is the same.
- Go compares strings byte by byte in UTF-8. The model compares characters by code point, which gives the same order for well-formed text.
