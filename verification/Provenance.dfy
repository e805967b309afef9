/** Which runtime image digest, if any, the ready Pods of an Application agree on. */
module Provenance {
  import opened Wrappers

  datatype Condition = Condition(kind: string, holds: bool)
  datatype Container = Container(name: string, image: string)
  datatype ContainerStatus = ContainerStatus(name: string, ready: bool, imageID: string)
  datatype Pod = Pod(name: string, terminating: bool, conditions: seq<Condition>,
                     containers: seq<Container>, statuses: seq<ContainerStatus>)

  datatype Resolution = Pending | Resolved(digest: string) | Invalid | Conflict

  const CONTAINER := "application"
  const DIGEST_LENGTH := 71  // "sha256:" and 64 hexadecimal digits

  predicate IsHex(c: char) { '0' <= c <= '9' || 'a' <= c <= 'f' }

  predicate IsDigest(s: string) {
    |s| == DIGEST_LENGTH && s[..7] == "sha256:" && forall i :: 7 <= i < DIGEST_LENGTH ==> IsHex(s[i])
  }

  /** The digest an image reference ends with, alone or after '@' or '/'. */
  function NormalizeImageDigest(imageID: string): (r: Option<string>)
    ensures r.Some? ==> IsDigest(r.value) && |r.value| <= |imageID| && imageID[|imageID| - |r.value|..] == r.value
  {
    var from := |imageID| - DIGEST_LENGTH;
    if from >= 0 && IsDigest(imageID[from..]) && (from == 0 || imageID[from - 1] in "@/") then Some(imageID[from..]) else None
  }

  function LastIndex(s: string, c: char): (k: int)
    ensures -1 <= k < |s|
    ensures k >= 0 ==> s[k] == c
    ensures forall i :: k < i < |s| ==> s[i] != c
  {
    if s == "" then -1 else if s[|s| - 1] == c then |s| - 1 else LastIndex(s[..|s| - 1], c)
  }

  /** The desired tag itself, or the same repository pinned to a digest. */
  predicate ImageMatches(observed: string, desired: string) {
    || observed == desired
    || (var separator := LastIndex(desired, ':');
        && separator >= 0
        && desired[..separator] + "@sha256:" <= observed
        && NormalizeImageDigest(observed).Some?)
  }

  predicate IsReady(pod: Pod) {
    exists i | 0 <= i < |pod.conditions| :: pod.conditions[i].kind == "Ready" && pod.conditions[i].holds
  }

  function ImageOf(containers: seq<Container>, name: string): string {
    if containers == [] then "" else if containers[0].name == name then containers[0].image else ImageOf(containers[1..], name)
  }

  function StatusOf(statuses: seq<ContainerStatus>, name: string): Option<ContainerStatus> {
    if statuses == [] then None else if statuses[0].name == name then Some(statuses[0]) else StatusOf(statuses[1..], name)
  }

  /** Ready, not terminating, and running the desired image. */
  predicate Relevant(pod: Pod, desired: string) {
    !pod.terminating && IsReady(pod) && ImageMatches(ImageOf(pod.containers, CONTAINER), desired)
  }

  predicate Reports(pod: Pod) {
    var status := StatusOf(pod.statuses, CONTAINER);
    status.Some? && status.value.ready && status.value.imageID != ""
  }

  function ReportedDigest(pod: Pod): Option<string>
    requires Reports(pod)
  {
    NormalizeImageDigest(StatusOf(pod.statuses, CONTAINER).value.imageID)
  }

  // ---------------------------------------------------------------- what a Pod says

  ghost predicate Digest(s: string) {
    |s| == 71 && "sha256:" <= s && forall i :: 7 <= i < 71 ==> s[i] in "0123456789abcdef"
  }

  /** The text is a digest, or ends with one after an '@' or a '/'. */
  ghost predicate EndsIn(text: string, digest: string) {
    Digest(digest) && (text == digest || exists front :: text == front + "@" + digest || text == front + "/" + digest)
  }

  /** The first container of the application runs this image; without one it is empty. */
  ghost predicate Runs(pod: Pod, image: string) {
    || ((forall c <- pod.containers :: c.name != "application") && image == "")
    || exists k :: 0 <= k < |pod.containers| && pod.containers[k] == Container("application", image)
                   && forall j :: 0 <= j < k ==> pod.containers[j].name != "application"
  }

  /** The desired image itself, or its repository pinned to a digest. */
  ghost predicate Wants(desired: string, image: string) {
    || image == desired
    || exists repository, tag, digest :: desired == repository + ":" + tag && ':' !in tag && repository + "@sha256:" <= image && EndsIn(image, digest)
  }

  /** Ready, not terminating, and running the desired image. */
  ghost predicate Wanted(pod: Pod, desired: string) {
    !pod.terminating && Condition("Ready", true) in pod.conditions && exists image :: Runs(pod, image) && Wants(desired, image)
  }

  /** The first status of the application is ready and names its image. */
  ghost predicate Answers(pod: Pod, imageID: string) {
    imageID != "" && exists k :: 0 <= k < |pod.statuses| && pod.statuses[k] == ContainerStatus("application", true, imageID)
                                 && forall j :: 0 <= j < k ==> pod.statuses[j].name != "application"
  }

  ghost predicate Says(pod: Pod, digest: string) { exists imageID :: Answers(pod, imageID) && EndsIn(imageID, digest) }

  /** It answers with something that is no digest. */
  ghost predicate Babbles(pod: Pod) { exists imageID :: Answers(pod, imageID) && forall d :: !EndsIn(imageID, d) }

  // ---------------------------------------------------------------- the code reads Pods that way

  lemma EndsInIs(text: string, digest: string)
    ensures EndsIn(text, digest) <==> NormalizeImageDigest(text) == Some(digest)
  {
    var from := |text| - 71;
    if EndsIn(text, digest) {
      DigestIs(digest);
      assert from >= 0 && text[from..] == digest;
    }
    if NormalizeImageDigest(text) == Some(digest) {
      DigestIs(digest);
      if from > 0 {
        assert text[from - 1] == '@' || text[from - 1] == '/';
        assert text == text[..from - 1] + [text[from - 1]] + digest;
        assert "@" == ['@'] && "/" == ['/'];
      }
    }
  }

  lemma DigestIs(s: string)
    ensures IsDigest(s) <==> Digest(s)
  {
    forall c: char ensures IsHex(c) <==> c in "0123456789abcdef" {
      HexIs(c);
    }
    if |s| == 71 {
      assert s[..7] == "sha256:" <==> "sha256:" <= s;
    }
  }

  lemma HexIs(c: char)
    ensures IsHex(c) <==> c in "0123456789abcdef"
  {
    var digits := "0123456789abcdef";
    if IsHex(c) {
      var k := if c <= '9' then c as int - '0' as int else 10 + c as int - 'a' as int;
      assert digits[k] == c;
    }
  }

  lemma {:induction false} ImageOfIs(containers: seq<Container>, image: string)
    ensures ((forall c <- containers :: c.name != "application") && image == "")
            || (exists k :: 0 <= k < |containers| && containers[k] == Container("application", image)
                            && forall j :: 0 <= j < k ==> containers[j].name != "application")
            <==> image == ImageOf(containers, CONTAINER)
    decreases |containers|
  {
    if containers != [] {
      var rest := containers[1..];
      ImageOfIs(rest, image);
      assert containers == [containers[0]] + rest;
      if containers[0].name != "application" {
        assert forall k :: 0 <= k < |rest| ==> containers[k + 1] == rest[k];
        if k :| 0 <= k < |rest| && rest[k] == Container("application", image) && forall j :: 0 <= j < k ==> rest[j].name != "application" {
          assert containers[k + 1] == Container("application", image);
        }
        if k :| 0 <= k < |containers| && containers[k] == Container("application", image) && forall j :: 0 <= j < k ==> containers[j].name != "application" {
          assert rest[k - 1] == Container("application", image);
        }
      } else {
        assert containers[0] in containers;
      }
    }
  }

  lemma {:induction false} StatusOfIs(statuses: seq<ContainerStatus>, imageID: string)
    ensures (exists k :: 0 <= k < |statuses| && statuses[k] == ContainerStatus("application", true, imageID)
                         && forall j :: 0 <= j < k ==> statuses[j].name != "application")
            <==> StatusOf(statuses, CONTAINER) == Some(ContainerStatus("application", true, imageID))
    decreases |statuses|
  {
    if statuses != [] && statuses[0].name != "application" {
      var rest, found := statuses[1..], ContainerStatus("application", true, imageID);
      StatusOfIs(rest, imageID);
      assert forall k :: 0 <= k < |rest| ==> statuses[k + 1] == rest[k];
      if k :| 0 <= k < |rest| && rest[k] == found && forall j :: 0 <= j < k ==> rest[j].name != "application" {
        assert statuses[k + 1] == found;
      }
      if k :| 0 <= k < |statuses| && statuses[k] == found && forall j :: 0 <= j < k ==> statuses[j].name != "application" {
        assert rest[k - 1] == found;
      }
    }
  }

  lemma WantsIs(desired: string, image: string)
    ensures Wants(desired, image) <==> ImageMatches(image, desired)
  {
    var separator := LastIndex(desired, ':');
    if repository, tag, digest :| desired == repository + ":" + tag && ':' !in tag && repository + "@sha256:" <= image && EndsIn(image, digest) {
      assert desired[|repository|] == ':';
      assert forall i :: |repository| < i < |desired| ==> desired[i] == tag[i - |repository| - 1];
      assert separator == |repository|;
      assert desired[..separator] == repository;
      EndsInIs(image, digest);
    }
    if image != desired && ImageMatches(image, desired) {
      var repository, tag := desired[..separator], desired[separator + 1..];
      assert desired == repository + ":" + tag && ':' !in tag && repository + "@sha256:" <= image;
      EndsInIs(image, NormalizeImageDigest(image).value);
    }
  }

  lemma AnswerIs(pod: Pod, imageID: string)
    ensures Answers(pod, imageID) <==> Reports(pod) && StatusOf(pod.statuses, CONTAINER).value.imageID == imageID
  {
    StatusOfIs(pod.statuses, imageID);
    StatusIsNamed(pod.statuses);
  }

  lemma {:induction false} StatusIsNamed(statuses: seq<ContainerStatus>)
    ensures StatusOf(statuses, CONTAINER).Some? ==> StatusOf(statuses, CONTAINER).value.name == "application"
    decreases |statuses|
  {
    if statuses != [] {
      StatusIsNamed(statuses[1..]);
    }
  }

  lemma PodIs(pod: Pod, desired: string)
    ensures Wanted(pod, desired) <==> Relevant(pod, desired)
    ensures forall d :: Says(pod, d) <==> Reports(pod) && ReportedDigest(pod) == Some(d)
    ensures Babbles(pod) <==> Reports(pod) && ReportedDigest(pod).None?
  {
    hide Answers, EndsIn, Runs, Wants, ImageMatches, NormalizeImageDigest;
    var image := ImageOf(pod.containers, CONTAINER);
    forall x ensures Runs(pod, x) <==> x == image {
      RunsIs(pod, x);
    }
    WantsIs(desired, image);
    ReadyIs(pod);
    forall x ensures Answers(pod, x) <==> Reports(pod) && StatusOf(pod.statuses, CONTAINER).value.imageID == x {
      AnswerIs(pod, x);
    }
    forall x, d ensures EndsIn(x, d) <==> NormalizeImageDigest(x) == Some(d) {
      EndsInIs(x, d);
    }
    if Reports(pod) {
      assert Answers(pod, StatusOf(pod.statuses, CONTAINER).value.imageID);
    }
  }

  lemma RunsIs(pod: Pod, image: string)
    ensures Runs(pod, image) <==> image == ImageOf(pod.containers, CONTAINER)
  {
    ImageOfIs(pod.containers, image);
  }

  lemma ReadyIs(pod: Pod)
    ensures IsReady(pod) <==> Condition("Ready", true) in pod.conditions
  {
  }

  lemma PodsAre(desired: string)
    ensures forall p :: Wanted(p, desired) <==> Relevant(p, desired)
    ensures forall p, d :: Says(p, d) <==> Reports(p) && ReportedDigest(p) == Some(d)
    ensures forall p :: Babbles(p) <==> Reports(p) && ReportedDigest(p).None?
  {
    hide Wanted, Says, Babbles, Relevant, Reports, ReportedDigest;
    forall p: Pod
      ensures Wanted(p, desired) <==> Relevant(p, desired)
      ensures Babbles(p) <==> Reports(p) && ReportedDigest(p).None?
      ensures forall d :: Says(p, d) <==> Reports(p) && ReportedDigest(p) == Some(d)
    {
      PodIs(p, desired);
    }
  }

  // ---------------------------------------------------------------- specification on sets of Pods

  ghost predicate SomeMalformed(pods: set<Pod>, desired: string) { exists p | p in pods :: Wanted(p, desired) && Babbles(p) }

  ghost predicate Disagree(pods: set<Pod>, desired: string) {
    exists p, q, d, e | p in pods && q in pods :: Wanted(p, desired) && Wanted(q, desired) && Says(p, d) && Says(q, e) && d != e
  }

  ghost predicate Agree(pods: set<Pod>, desired: string, digest: string) {
    (exists p | p in pods :: Wanted(p, desired)) && forall p | p in pods && Wanted(p, desired) :: Says(p, digest)
  }

  /** Invalid before conflict before pending; resolved exactly on agreement. */
  ghost predicate Resolves(pods: set<Pod>, desired: string, r: Resolution) {
    match r
    case Invalid => SomeMalformed(pods, desired)
    case Conflict => !SomeMalformed(pods, desired) && Disagree(pods, desired)
    case Resolved(digest) => Agree(pods, desired, digest)
    case Pending => !SomeMalformed(pods, desired) && !Disagree(pods, desired) && forall d :: !Agree(pods, desired, d)
  }

  /** The specification determines the outcome. */
  lemma ResolutionIsUnique(pods: set<Pod>, desired: string, a: Resolution, b: Resolution)
    requires Resolves(pods, desired, a) && Resolves(pods, desired, b)
    ensures a == b
  {
    hide Wanted, Says, Babbles, Relevant, Reports, ReportedDigest;
    PodsAre(desired);
    if a.Resolved? && b.Resolved? {
      var p :| p in pods && Wanted(p, desired);
      assert Says(p, a.digest) && Says(p, b.digest);
    }
  }

  ghost function PodSet(pods: seq<Pod>): set<Pod> { set p | p in pods }

  /** One pass over the Pods with a digest set, a counter and a flag. */
  method ResolvePodImageDigest(pods: seq<Pod>, desired: string) returns (r: Resolution)
    ensures Resolves(PodSet(pods), desired, r)
  {
    hide Wanted, Says, Babbles, Relevant, Reports, ReportedDigest, Scanned;
    NothingScanned(desired);
    assert pods[..0] == [];
    var digests: set<string> := {};
    var readyDesiredPods, missingImageID := 0, false;
    var i := 0;
    while i < |pods|
      invariant 0 <= i <= |pods| && Scanned(pods[..i], desired, digests, readyDesiredPods, missingImageID)
    {
      var pod := pods[i];
      assert pods[..i + 1] == pods[..i] + [pod];
      ScanStep(pods[..i], pod, desired, digests, readyDesiredPods, missingImageID);
      i := i + 1;
      if !Relevant(pod, desired) {
        continue;
      }
      readyDesiredPods := readyDesiredPods + 1;
      if !Reports(pod) {
        missingImageID := true;
        continue;
      }
      var digest := ReportedDigest(pod);
      if digest.None? {
        assert PodSet(pods[..i]) <= PodSet(pods);
        return Invalid;
      }
      digests := digests + {digest.value};
    }
    assert pods[..i] == pods;
    ScanDecides(pods, desired, digests, readyDesiredPods, missingImageID);
    if |digests| > 1 {
      return Conflict;
    }
    if readyDesiredPods == 0 || missingImageID || |digests| == 0 {
      return Pending;
    }
    var digest :| digest in digests;
    return Resolved(digest);
  }

  /** What the loop's three variables say about the Pods seen so far. */
  ghost predicate Scanned(pods: seq<Pod>, desired: string, digests: set<string>, ready: nat, missing: bool) {
    && (ready > 0 <==> exists i :: 0 <= i < |pods| && Relevant(pods[i], desired))
    && (missing <==> exists i :: 0 <= i < |pods| && Relevant(pods[i], desired) && !Reports(pods[i]))
    && (forall i :: 0 <= i < |pods| && Relevant(pods[i], desired) && Reports(pods[i]) ==>
         ReportedDigest(pods[i]).Some? && ReportedDigest(pods[i]).value in digests)
    && (forall d :: d in digests ==>
         exists i :: 0 <= i < |pods| && Relevant(pods[i], desired) && Reports(pods[i]) && ReportedDigest(pods[i]) == Some(d))
  }

  lemma NothingScanned(desired: string)
    ensures Scanned([], desired, {}, 0, false)
  {
  }

  lemma ScanStep(pods: seq<Pod>, pod: Pod, desired: string, digests: set<string>, ready: nat, missing: bool)
    requires Scanned(pods, desired, digests, ready, missing)
    ensures var longer := pods + [pod];
            if !Relevant(pod, desired) then Scanned(longer, desired, digests, ready, missing)
            else if !Reports(pod) then Scanned(longer, desired, digests, ready + 1, true)
            else if ReportedDigest(pod).None? then SomeMalformed(PodSet(longer), desired)
            else Scanned(longer, desired, digests + {ReportedDigest(pod).value}, ready + 1, missing)
  {
    hide Wanted, Says, Babbles, Relevant, Reports, ReportedDigest;
    PodsAre(desired);
    var longer := pods + [pod];
    assert longer[|pods|] == pod && forall i :: 0 <= i < |pods| ==> longer[i] == pods[i];
    assert pod in PodSet(longer);
  }

  lemma ScanDecides(pods: seq<Pod>, desired: string, digests: set<string>, ready: nat, missing: bool)
    requires Scanned(pods, desired, digests, ready, missing)
    ensures |digests| > 1 ==> Resolves(PodSet(pods), desired, Conflict)
    ensures |digests| <= 1 && (ready == 0 || missing || |digests| == 0) ==> Resolves(PodSet(pods), desired, Pending)
    ensures |digests| == 1 && ready > 0 && !missing ==> forall d :: d in digests ==> Resolves(PodSet(pods), desired, Resolved(d))
  {
    hide Wanted, Says, Babbles, Relevant, Reports, ReportedDigest;
    PodsAre(desired);
    var podSet := PodSet(pods);
    forall p | p in podSet && Relevant(p, desired) && Reports(p)
      ensures ReportedDigest(p).Some? && ReportedDigest(p).value in digests
    {
      var i :| 0 <= i < |pods| && pods[i] == p;
    }
    if |digests| > 1 {
      var d, e := TwoOf(digests);
      var i :| 0 <= i < |pods| && Relevant(pods[i], desired) && Reports(pods[i]) && ReportedDigest(pods[i]) == Some(d);
      var j :| 0 <= j < |pods| && Relevant(pods[j], desired) && Reports(pods[j]) && ReportedDigest(pods[j]) == Some(e);
      assert pods[i] in podSet && pods[j] in podSet;
    } else {
      forall p, q | p in podSet && q in podSet && Relevant(p, desired) && Reports(p) && Relevant(q, desired) && Reports(q)
        ensures ReportedDigest(p) == ReportedDigest(q)
      {
        AtMostOne(digests, ReportedDigest(p).value, ReportedDigest(q).value);
      }
      if ready == 0 {
        assert forall p :: p in podSet ==> !Relevant(p, desired);
      } else if missing {
        var i :| 0 <= i < |pods| && Relevant(pods[i], desired) && !Reports(pods[i]);
        assert pods[i] in podSet;
      } else {
        var i :| 0 <= i < |pods| && Relevant(pods[i], desired);
        assert pods[i] in podSet && Reports(pods[i]);
        forall d | d in digests ensures Agree(podSet, desired, d) {
          forall p | p in podSet && Relevant(p, desired) ensures Reports(p) && ReportedDigest(p) == Some(d) {
            var k :| 0 <= k < |pods| && pods[k] == p;
            AtMostOne(digests, ReportedDigest(p).value, d);
          }
        }
      }
    }
  }

  lemma TwoOf(s: set<string>) returns (a: string, b: string)
    requires |s| > 1
    ensures a in s && b in s && a != b
  {
    a :| a in s;
    assert |s - {a}| > 0;
    b :| b in s - {a};
  }

  lemma AtMostOne(s: set<string>, a: string, b: string)
    requires |s| <= 1 && a in s && b in s
    ensures a == b
  {
    var pair := {a, b};
    assert pair <= s && s == pair + (s - pair);
    assert |pair| <= |s|;
    assert a != b ==> |pair| == 2;
  }

  // ---------------------------------------------------------------- main result

  /** The state and the digest depend only on which Pods exist, not on their order or repetition. */
  method SameForAnyOrder(a: seq<Pod>, b: seq<Pod>, desired: string) returns (x: Resolution, y: Resolution)
    requires multiset(a) == multiset(b)
    ensures x == y && Resolves(PodSet(a), desired, x)
  {
    hide Resolves;
    x := ResolvePodImageDigest(a, desired);
    y := ResolvePodImageDigest(b, desired);
    assert forall p :: p in a <==> p in multiset(a);
    assert forall p :: p in b <==> p in multiset(b);
    assert PodSet(a) == PodSet(b);
    ResolutionIsUnique(PodSet(a), desired, x, y);
  }
}
