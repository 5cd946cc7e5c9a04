/** Recovering from the per-inbox installation cap by revoking the oldest installations. */
module InstallationCap {
  import opened Wrappers
  import opened StableSort

  const INSTALLATION_CAP := 10

  /** `createdAt` is absent when the network reports no age. */
  datatype Installation = Installation(id: string, createdAt: Option<int>)

  /** The source's comparator: ascending by age, unknown ages last. */
  function CompareAge(a: Installation, b: Installation): int {
    if a.createdAt.None? then (if b.createdAt.None? then 0 else 1)
    else if b.createdAt.None? then -1
    else a.createdAt.value - b.createdAt.value
  }

  predicate OldestFirst(a: Installation, b: Installation) {
    CompareAge(a, b) <= 0
  }

  lemma OldestFirstIsPreorder()
    ensures TotalPreorder(OldestFirst)
  {
    var le := OldestFirst;
    forall x: Installation, y: Installation ensures le(x, y) <==> CompareAge(x, y) <= 0 {
      assert le(x, y) == OldestFirst(x, y);
    }
  }

  function Needed(n: nat): nat {
    if n - (INSTALLATION_CAP - 1) > 1 then n - (INSTALLATION_CAP - 1) else 1
  }

  function IdsOf(s: seq<Installation>): seq<string> {
    seq(|s|, i requires 0 <= i < |s| => s[i].id)
  }

  function OldestInstallationIds(installations: seq<Installation>): (ids: seq<string>)
    ensures |ids| <= |installations|
  {
    if installations == [] then []
    else
      SortKeepsElements(installations, OldestFirst);
      IdsOf(Sort(installations, OldestFirst)[..Needed(|installations|)])
  }

  /** The installations split into revoked and kept. What is kept leaves a slot under the cap, one fewer
      revocation at or over the cap would not, and nothing revoked is younger than anything kept, an
      unknown age counting as youngest. */
  lemma CapRecoveryIsMinimalAndOldestFirst(installations: seq<Installation>)
      returns (revoked: seq<Installation>, kept: seq<Installation>)
    requires installations != []
    ensures IdsOf(revoked) == OldestInstallationIds(installations)
    ensures multiset(revoked) + multiset(kept) == multiset(installations)
    ensures |revoked| >= 1 && |kept| <= 9
    ensures |installations| >= 10 ==> |kept| == 9
    ensures forall r, k :: r in revoked && k in kept ==>
      k.createdAt.None? || (r.createdAt.Some? && r.createdAt.value <= k.createdAt.value)
  {
    OldestFirstIsPreorder();
    SortIsSorted(installations, OldestFirst);
    SortKeepsElements(installations, OldestFirst);
    var byAge := Sort(installations, OldestFirst);
    var n := Needed(|installations|);
    revoked, kept := byAge[..n], byAge[n..];
    assert byAge == revoked + kept;
    SplitInOrder(byAge, n);
  }

  lemma SplitInOrder(byAge: seq<Installation>, n: nat)
    requires SortedBy(byAge, OldestFirst) && n <= |byAge|
    ensures forall r, k :: r in byAge[..n] && k in byAge[n..] ==>
      k.createdAt.None? || (r.createdAt.Some? && r.createdAt.value <= k.createdAt.value)
  {
    var le := OldestFirst;
    forall i, j | 0 <= i < n <= j < |byAge| ensures OldestFirst(byAge[i], byAge[j]) {
      assert le(byAge[i], byAge[j]) == OldestFirst(byAge[i], byAge[j]);
    }
  }
}
