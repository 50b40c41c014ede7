/**
  The `get` command: list the context names of the local kubeconfig in
  ascending order, under a fixed header line.
 */
module Get {
  import opened KubeConfig
  import opened GoStrings

  /** The line printed before the names. */
  const Header := "List of available Kubernetes contexts (sorted alphabetically):"

  /** The whole `get` command once the file is loaded: collect the names,
      `sort.Strings` them in place, and print the header and one `- name`
      line per context. */
  method ListContexts(contexts: map<string, Context>) returns (names: seq<string>, lines: seq<string>)
    ensures multiset(names) == multiset(contexts.Keys)
    ensures Sorted(names)
    ensures |lines| == |names| + 1 && lines[0] == Header
    ensures forall i :: 0 <= i < |names| ==> lines[i + 1] == "- " + names[i]
  {
    var collected := ContextNames(contexts);
    var a := new string[|collected|](i requires 0 <= i < |collected| => collected[i]);
    assert a[..] == collected;
    SortStrings(a);
    names := a[..];
    lines := [Header];
    for k := 0 to |names|
      invariant |lines| == k + 1 && lines[0] == Header
      invariant forall i :: 0 <= i < k ==> lines[i + 1] == "- " + names[i]
    {
      lines := lines + ["- " + names[k]];
    }
  }

  /** A name list satisfying ListContexts' contract is determined by the set
      of context names alone: the output does not depend on the order in
      which the map was visited. */
  lemma {:induction false} ListingIndependentOfOrder(contexts: map<string, Context>, names1: seq<string>, names2: seq<string>)
    requires multiset(names1) == multiset(contexts.Keys) && Sorted(names1)
    requires multiset(names2) == multiset(contexts.Keys) && Sorted(names2)
    ensures names1 == names2
  {
    SortedUnique(names1, names2);
  }

  /** Two contexts named "b" and "a" are listed as "a", "b". */
  lemma ListingExample(contexts: map<string, Context>, names: seq<string>)
    requires contexts.Keys == {"a", "b"}
    requires multiset(names) == multiset(contexts.Keys) && Sorted(names)
    ensures names == ["a", "b"]
  {
    var expected := ["a", "b"];
    assert LessEq("a", "b");
    assert multiset(expected) == multiset(contexts.Keys);
    SortedUnique(names, expected);
  }
}
