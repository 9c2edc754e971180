/**
 Building the service list from one round of resolver answers
 (`fetch_services_from_dns`): entries are resolved in order; a failed entry
 either aborts the whole build or, when `ignore_dns_error` is set, is skipped;
 every answer of a resolved entry becomes one service.
 */
module Builder {
  import opened ServiceModel

  /** A build returns the list, or raises the resolver's error. */
  datatype BuildResult = Built(services: seq<Service>) | Raised(error: string)

  /** The build over `entries` with `answers[k]` the resolver's answer for
      `entries[k]`. Defined on the last entry, in the order the loop meets
      them. */
  function BuildServiceList(entries: seq<Entry>, answers: seq<Resolution>, ignoreDnsError: bool): BuildResult
    requires |answers| == |entries|
    decreases |entries|
  {
    if entries == [] then Built([])
    else
      var n := |entries| - 1;
      var before := BuildServiceList(entries[..n], answers[..n], ignoreDnsError);
      if before.Raised? then before
      else
        match answers[n]
        case Failed(reason) => if ignoreDnsError then before else Raised(reason)
        case Resolved(addrs) => Built(before.services + EntryServices(entries[n], addrs))
  }

  /** Once a prefix of the entries has raised, the whole build raises the
      same error: later entries are never looked at. */
  lemma {:induction false} RaisedPrefix(entries: seq<Entry>, answers: seq<Resolution>, ignoreDnsError: bool, m: nat)
    requires |answers| == |entries| && m <= |entries|
    requires BuildServiceList(entries[..m], answers[..m], ignoreDnsError).Raised?
    ensures BuildServiceList(entries, answers, ignoreDnsError) ==
            BuildServiceList(entries[..m], answers[..m], ignoreDnsError)
    decreases |entries| - m
  {
    if m == |entries| {
      assert entries[..m] == entries && answers[..m] == answers;
    } else {
      var n := |entries| - 1;
      assert entries[..n][..m] == entries[..m] && answers[..n][..m] == answers[..m];
      RaisedPrefix(entries[..n], answers[..n], ignoreDnsError, m);
    }
  }

  /** What one entry adds to the list: its services when it resolved,
      nothing when it failed. */
  function Piece(e: Entry, r: Resolution): seq<Service>
  {
    match r
    case Failed(_) => []
    case Resolved(addrs) => EntryServices(e, addrs)
  }

  /** Reference definition: the contributions of all entries, in entry order,
      independent of any error policy. */
  function Contributions(entries: seq<Entry>, answers: seq<Resolution>): seq<Service>
    requires |answers| == |entries|
    decreases |entries|
  {
    if entries == [] then []
    else Piece(entries[0], answers[0]) + Contributions(entries[1..], answers[1..])
  }

  /** Some entry's resolution failed. */
  predicate AnyFailed(answers: seq<Resolution>)
  {
    exists k :: 0 <= k < |answers| && answers[k].Failed?
  }

  /** `s` is the service made from the i-th answer of the k-th entry. */
  ghost predicate ComesFrom(s: Service, entries: seq<Entry>, answers: seq<Resolution>, k: int, i: int)
    requires |answers| == |entries|
  {
    0 <= k < |entries| && answers[k].Resolved? && 0 <= i < |answers[k].addrs| &&
    s == ServiceFor(entries[k], answers[k].addrs[i], i)
  }

  /** Peeling the last entry off the reference definition. */
  lemma {:induction false} ContributionsSnoc(entries: seq<Entry>, answers: seq<Resolution>)
    requires |answers| == |entries| > 0
    ensures var n := |entries| - 1;
      Contributions(entries, answers) ==
        Contributions(entries[..n], answers[..n]) + Piece(entries[n], answers[n])
  {
    var n := |entries| - 1;
    if n == 0 {
      assert Contributions(entries[1..], answers[1..]) == [];
    } else {
      ContributionsSnoc(entries[1..], answers[1..]);
      assert entries[1..][..n - 1] == entries[..n][1..];
      assert answers[1..][..n - 1] == answers[..n][1..];
      assert entries[..n][0] == entries[0] && answers[..n][0] == answers[0];
    }
  }

  /** With `ignore_dns_error`, the build never raises: failing entries are
      skipped and all others contribute, in order. */
  lemma {:induction false} BuildIgnoringErrors(entries: seq<Entry>, answers: seq<Resolution>)
    requires |answers| == |entries|
    ensures BuildServiceList(entries, answers, true) == Built(Contributions(entries, answers))
    decreases |entries|
  {
    if entries != [] {
      var n := |entries| - 1;
      BuildIgnoringErrors(entries[..n], answers[..n]);
      ContributionsSnoc(entries, answers);
    }
  }

  /** The position of the first failed entry, or the number of entries when
      none failed. */
  function FirstFailed(answers: seq<Resolution>): (k: nat)
    ensures k <= |answers|
    ensures forall j :: 0 <= j < k ==> answers[j].Resolved?
    ensures k < |answers| ==> answers[k].Failed?
    decreases |answers|
  {
    if answers == [] then 0
    else
      var n := |answers| - 1;
      var before := FirstFailed(answers[..n]);
      if before < n then before
      else if answers[n].Failed? then n
      else n + 1
  }

  /** Without `ignore_dns_error`, the build raises exactly when some entry
      fails, with the error of the first failing entry, and returns no
      partial list; otherwise it returns every entry's services, in order. */
  lemma {:induction false} BuildStrict(entries: seq<Entry>, answers: seq<Resolution>)
    requires |answers| == |entries|
    ensures var k := FirstFailed(answers);
      BuildServiceList(entries, answers, false) ==
        if k < |answers| then Raised(answers[k].reason) else Built(Contributions(entries, answers))
    decreases |entries|
  {
    if entries != [] {
      var n := |entries| - 1;
      BuildStrict(entries[..n], answers[..n]);
      if FirstFailed(answers[..n]) == n && answers[n].Resolved? {
        ContributionsSnoc(entries, answers);
      }
    }
  }

  /** Some entry's resolution failed exactly when FirstFailed points inside. */
  lemma AnyFailedFirst(answers: seq<Resolution>)
    ensures AnyFailed(answers) <==> FirstFailed(answers) < |answers|
  {
    if AnyFailed(answers) {
      var k :| 0 <= k < |answers| && answers[k].Failed?;
      assert FirstFailed(answers) <= k;
    }
  }

  /** Without `ignore_dns_error`, the build raises exactly when some entry
      failed. */
  lemma StrictRaisesIffFailed(entries: seq<Entry>, answers: seq<Resolution>)
    requires |answers| == |entries|
    ensures BuildServiceList(entries, answers, false).Raised? <==> AnyFailed(answers)
  {
    BuildStrict(entries, answers);
    AnyFailedFirst(answers);
  }

  /** Membership in the list: a service is in it exactly when it is made
      from some answer of some resolved entry. */
  lemma {:induction false} ContributionsMembers(entries: seq<Entry>, answers: seq<Resolution>, s: Service)
    requires |answers| == |entries|
    ensures s in Contributions(entries, answers) <==>
              exists k, i :: ComesFrom(s, entries, answers, k, i)
    decreases |entries|
  {
    if entries != [] {
      var tailE, tailA := entries[1..], answers[1..];
      ContributionsMembers(tailE, tailA, s);
      var head := Piece(entries[0], answers[0]);
      if s in head {
        var i :| 0 <= i < |head| && head[i] == s;
        assert ComesFrom(s, entries, answers, 0, i);
      } else if s in Contributions(tailE, tailA) {
        var k, i :| ComesFrom(s, tailE, tailA, k, i);
        assert ComesFrom(s, entries, answers, k + 1, i);
      }
      if exists k, i :: ComesFrom(s, entries, answers, k, i) {
        var k, i :| ComesFrom(s, entries, answers, k, i);
        if k == 0 {
          assert head[i] == s;
        } else {
          assert ComesFrom(s, tailE, tailA, k - 1, i);
        }
      }
    }
  }

  /** The list is empty exactly when every entry failed or resolved to no
      address at all. */
  lemma {:induction false} ContributionsEmpty(entries: seq<Entry>, answers: seq<Resolution>)
    requires |answers| == |entries|
    ensures Contributions(entries, answers) == [] <==>
              forall k :: 0 <= k < |answers| ==> answers[k].Failed? || answers[k].addrs == []
    decreases |entries|
  {
    if entries != [] {
      ContributionsEmpty(entries[1..], answers[1..]);
      assert forall k :: 1 <= k < |answers| ==> answers[k] == answers[1..][k - 1];
    }
  }

  /** The list is as long as the number of answers of the resolved entries. */
  function AnswerCount(answers: seq<Resolution>): nat
  {
    if answers == [] then 0
    else (if answers[0].Resolved? then |answers[0].addrs| else 0) + AnswerCount(answers[1..])
  }

  lemma {:induction false} ContributionsLength(entries: seq<Entry>, answers: seq<Resolution>)
    requires |answers| == |entries|
    ensures |Contributions(entries, answers)| == AnswerCount(answers)
    decreases |entries|
  {
    if entries != [] {
      ContributionsLength(entries[1..], answers[1..]);
    }
  }
}
