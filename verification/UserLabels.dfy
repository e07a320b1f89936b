/** Merging a claim's user labels: `mergeUserLabels` of integrations/kubernetes/controller/pvc.go. */
module UserLabels {
  import opened Collections
  import opened LabelFilters
  import opened SortedStrings
  import opened VolumeExports
  import opened VolumeMetadata

  const RESERVED: set<string> := {
    PVC_NAME, PVC_NAMESPACE, "kubernetes.pvc.storageclassname", CREATED_BY, PV_NAME, PV_STORAGE_CLASS, NODE_NAME,
        VOLUME_ATTACHMENT_NAME,
    "kubernetes.source.pvc.name", "kubernetes.source.pvc.namespace", "kubernetes.source.pvc.storageclassname",
    "kubernetes.snapshot.name", "kubernetes.snapshot.namespace", CLONE_SOURCE_TYPE, CLONE_SOURCE_NAME
  }

  predicate LowerOrDigit(c: char)
  {
    'a' <= c <= 'z' || '0' <= c <= '9'
  }

  // ^[a-z0-9][a-z0-9._-]{0,62}$
  predicate ValidLabelKey(k: string)
  {
    1 <= |k| <= 63 && LowerOrDigit(k[0]) && forall c | c in k[1..] :: LowerOrDigit(c) || c in "._-"
  }

  // ^[a-zA-Z0-9._-]{0,128}$
  predicate ValidLabelValue(v: string)
  {
    |v| <= 128 && forall c | c in v :: LowerOrDigit(c) || 'A' <= c <= 'Z' || c in "._-"
  }

  predicate Eligible(user: Labels, k: string)
  {
    k !in RESERVED && k in user && ValidLabelKey(k) && ValidLabelValue(user[k])
  }

  const LOWER := "abcdefghijklmnopqrstuvwxyz"
  const UPPER := "ABCDEFGHIJKLMNOPQRSTUVWXYZ"
  const DIGITS := "0123456789"

  lemma LowerIsRange(c: char)
    ensures 'a' <= c <= 'z' <==> c in LOWER
  {
  }

  lemma UpperIsRange(c: char)
    ensures 'A' <= c <= 'Z' <==> c in UPPER
  {
  }

  lemma DigitsAreRange(c: char)
    ensures '0' <= c <= '9' <==> c in DIGITS
  {
  }

  /**
   A label can be merged exactly if its key is not reserved, has 1 to 63 characters that are lower-case letters,
   digits or, but for the first, one of ".", "_" and "-", and its value has at most 128 characters that are
   letters, digits or one of those.
   */
  lemma EligibleMeans(user: Labels, k: string)
    requires k in user
    ensures Eligible(user, k)
      <==> && k !in RESERVED
           && 0 < |k| < 64 && (forall i | 0 <= i < |k| :: k[i] in LOWER + DIGITS || (i > 0 && k[i] in "._-"))
           && |user[k]| < 129 && (forall i | 0 <= i < |user[k]| :: user[k][i] in LOWER + UPPER + DIGITS + "._-")
  {
    forall c
      ensures LowerOrDigit(c) <==> c in LOWER + DIGITS
      ensures LowerOrDigit(c) || 'A' <= c <= 'Z' || c in "._-" <==> c in LOWER + UPPER + DIGITS + "._-"
    {
      LowerIsRange(c);
      UpperIsRange(c);
      DigitsAreRange(c);
    }
  }

  /** No user label passes for one that publishing writes or that update protects. */
  lemma OwnLabelsAreReserved(node: string, pv: string, class_: string, attachment: string, pvc: string,
      namespace_: string, identity: string)
    ensures PublishLabels(node, pv, class_, attachment, pvc, namespace_, identity).Keys <= RESERVED
    ensures ProtectedKeys([]) <= RESERVED
  {
  }

  function Take(s: seq<string>, n: int): seq<string>
  {
    if n <= 0 then [] else if n <= |s| then s[..n] else s
  }

  function Eligibility(user: Labels): string -> bool
  {
    (k: string) => Eligible(user, k)
  }

  // The first maxUser eligible keys of a list.
  function Accepted(keys: seq<string>, ok: string -> bool, maxUser: int): seq<string>
  {
    Take(Filter(keys, ok), maxUser)
  }

  function Rejected(keys: seq<string>, ok: string -> bool, maxUser: int): seq<string>
  {
    var accepted := Accepted(keys, ok, maxUser);
    Filter(keys, (k: string) => k !in accepted)
  }

  function Merged(dst: Labels, user: Labels, accepted: seq<string>): Labels
  {
    dst + map k | k in accepted && k in user :: user[k]
  }

  // `keys` are the keys of the user's labels, sorted.
  ghost predicate KeysOf(keys: seq<string>, user: Labels)
  {
    Sorted(keys) && Distinct(keys) && forall k :: k in keys <==> k in user
  }

  lemma AcceptedStep(keys: seq<string>, i: nat, ok: string -> bool, maxUser: int)
    requires i < |keys|
    ensures var accepted := Accepted(keys[..i], ok, maxUser);
      Accepted(keys[..i + 1], ok, maxUser)
      == if ok(keys[i]) && |accepted| < maxUser then accepted + [keys[i]] else accepted
  {
    assert keys[..i + 1] == keys[..i] + [keys[i]];
    FilterSnoc(keys[..i], keys[i], ok);
  }

  lemma AcceptedAreKeys(keys: seq<string>, ok: string -> bool, maxUser: int)
    ensures forall k | k in Accepted(keys, ok, maxUser) :: k in keys && ok(k)
  {
    FilterMembers(keys, ok);
  }

  lemma RejectedStep(keys: seq<string>, i: nat, ok: string -> bool, maxUser: int)
    requires i < |keys| && Distinct(keys)
    ensures var rejected := Rejected(keys[..i], ok, maxUser);
      Rejected(keys[..i + 1], ok, maxUser)
      == if ok(keys[i]) && |Accepted(keys[..i], ok, maxUser)| < maxUser then rejected else rejected + [keys[i]]
  {
    var before, after := Accepted(keys[..i], ok, maxUser), Accepted(keys[..i + 1], ok, maxUser);
    AcceptedStep(keys, i, ok, maxUser);
    AcceptedAreKeys(keys[..i], ok, maxUser);
    assert keys[..i + 1] == keys[..i] + [keys[i]];
    assert keys[i] !in keys[..i];
    FilterSnoc(keys[..i], keys[i], (k: string) => k !in after);
    FilterSame(keys[..i], (k: string) => k !in after, (k: string) => k !in before);
  }

  // The tests on one key: reserved keys and malformed labels are skipped.
  method CheckLabel(user: Labels, k: string) returns (fits: bool)
    requires k in user
    ensures fits == Eligibility(user)(k)
  {
    if k in RESERVED {
      return false;
    }
    return ValidLabelKey(k) && ValidLabelValue(user[k]);
  }

  lemma MergedStep(dst: Labels, user: Labels, accepted: seq<string>, k: string)
    requires k in user
    ensures Merged(dst, user, accepted + [k]) == Merged(dst, user, accepted)[k := user[k]]
  {
  }

  /** The result depends on the user's labels only, not on the order in which the map is walked. */
  method MergeUserLabels(dst: Labels, user: Labels, maxUser: int) returns (merged: Labels, skipped: seq<string>)
    ensures forall keys | KeysOf(keys, user) ::
      merged == Merged(dst, user, Accepted(keys, Eligibility(user), maxUser))
          && skipped == Rejected(keys, Eligibility(user), maxUser)
  {
    var keys := SortedList(user.Keys);
    merged, skipped := dst, [];
    var count := 0;
    ghost var ok := Eligibility(user);
    for i := 0 to |keys|
      invariant count == |Accepted(keys[..i], ok, maxUser)|
      invariant merged == Merged(dst, user, Accepted(keys[..i], ok, maxUser))
      invariant skipped == Rejected(keys[..i], ok, maxUser)
    {
      var k := keys[i];
      AcceptedStep(keys, i, ok, maxUser);
      RejectedStep(keys, i, ok, maxUser);
      assert k in user;
      var fits := CheckLabel(user, k);
      if !fits {
        skipped := skipped + [k];
      } else if count >= maxUser {
        skipped := skipped + [k];
      } else {
        MergedStep(dst, user, Accepted(keys[..i], ok, maxUser), k);
        merged := merged[k := user[k]];
        count := count + 1;
      }
    }
    assert keys[..|keys|] == keys;
    forall other | KeysOf(other, user)
      ensures other == keys
    {
      SortedIsUnique(other, keys);
    }
  }

  /**
   What merging achieves: accepted and skipped keys partition the user's keys; at most maxUser
   keys are accepted, all of them eligible, and an eligible key is skipped only when the quota
   is used up by smaller ones; reserved keys of the destination are untouched.
   */
  lemma MergePartitions(dst: Labels, keys: seq<string>, user: Labels, maxUser: int)
    requires KeysOf(keys, user)
    ensures
      var accepted, skipped := Accepted(keys, Eligibility(user), maxUser), Rejected(keys, Eligibility(user), maxUser);
      var merged := Merged(dst, user, accepted);
      && (forall k :: k in user <==> k in accepted || k in skipped)
      && (forall k :: !(k in accepted && k in skipped))
      && |accepted| <= (if maxUser > 0 then maxUser else 0)
      && (forall k | k in accepted :: Eligible(user, k) && k in merged && merged[k] == user[k])
      && (forall k | k in skipped && Eligible(user, k) && maxUser > 0 ::
            |accepted| == maxUser && forall a | a in accepted :: Leq(a, k))
      && (forall k | k !in accepted :: (k in merged <==> k in dst) && (k in dst ==> merged[k] == dst[k]))
      && (forall k | k in RESERVED :: k !in accepted)
      && Sorted(accepted) && Sorted(skipped)
  {
    var ok := Eligibility(user);
    var eligible := Filter(keys, ok);
    var accepted := Accepted(keys, ok, maxUser);
    FilterMembers(keys, ok);
    FilterMembers(keys, (k: string) => k !in accepted);
    AcceptedAreKeys(keys, ok, maxUser);
    FilterKeepsOrder(keys, ok);
    FilterKeepsOrder(keys, (k: string) => k !in accepted);
    assert forall j | 0 <= j < |accepted| :: eligible[j] == accepted[j];
    forall k | k !in accepted && k in keys && Eligible(user, k) && maxUser > 0
      ensures |accepted| == maxUser && forall a | a in accepted :: Leq(a, k)
    {
      var j :| 0 <= j < |eligible| && eligible[j] == k;
      assert j >= |accepted|;
    }
  }

  lemma {:induction false} FilterKeepsOrder(keys: seq<string>, keep: string -> bool)
    requires Sorted(keys)
    ensures Sorted(Filter(keys, keep))
  {
    if keys != [] {
      var init := keys[..|keys| - 1];
      FilterKeepsOrder(init, keep);
      FilterMembers(init, keep);
      forall i | 0 <= i < |Filter(init, keep)|
        ensures Leq(Filter(init, keep)[i], keys[|keys| - 1])
      {
        assert Filter(init, keep)[i] in Filter(init, keep);
      }
    }
  }
}
