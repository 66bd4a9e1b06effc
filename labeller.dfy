/**
 * The CrossplaneLabeller reconciler's bookkeeping: status conditions with
 * one entry per type, the labelling-error condition and its message, the
 * requeue interval, and the pod IPs handed to the resolver.
 */
module Labeller {
  import opened GoStrings

  datatype ConditionStatus = ConditionTrue | ConditionFalse | ConditionUnknown

  /** A status condition; `lastTransitionTime` is a nanosecond count. */
  datatype Condition = Condition(
    conditionType: string,
    status: ConditionStatus,
    reason: string,
    message: string,
    lastTransitionTime: int)

  /** A condition whose status, reason or message differs from `c`'s. */
  predicate Changed(old_: Condition, c: Condition) {
    old_.status != c.status || old_.reason != c.reason || old_.message != c.message
  }

  /**
   * The conditions after recording `c`: the first entry of its type is
   * replaced when it changed and kept (timestamp included) when it did not;
   * without such an entry `c` is appended.
   */
  function Upserted(cs: seq<Condition>, c: Condition): seq<Condition> {
    if cs == [] then [c]
    else if cs[0].conditionType == c.conditionType then
      (if Changed(cs[0], c) then [c] + cs[1..] else cs)
    else [cs[0]] + Upserted(cs[1..], c)
  }

  /** The status object whose conditions the reconciler edits in place. */
  class CrossplaneLabeller {
    var conditions: seq<Condition>

    constructor(conditions: seq<Condition>)
      ensures this.conditions == conditions
    {
      this.conditions := conditions;
    }
  }

  lemma {:induction false} UpsertedSplit(cs: seq<Condition>, c: Condition, i: int)
    requires 0 <= i < |cs| && cs[i].conditionType != c.conditionType
    ensures cs[..i] + Upserted(cs[i..], c) == cs[..i + 1] + Upserted(cs[i + 1..], c)
  {
    assert cs[i..][1..] == cs[i + 1..];
    assert cs[..i + 1] == cs[..i] + [cs[i]];
  }

  /** `updateCondition`: record a condition stamped `now`. */
  method UpdateCondition(labeller: CrossplaneLabeller, conditionType: string, status: ConditionStatus,
                         reason: string, message: string, now: int)
    modifies labeller
    ensures labeller.conditions ==
      Upserted(old(labeller.conditions), Condition(conditionType, status, reason, message, now))
  {
    var condition := Condition(conditionType, status, reason, message, now);
    ghost var cs := labeller.conditions;
    for i := 0 to |labeller.conditions|
      invariant labeller.conditions == cs
      invariant Upserted(cs, condition) == cs[..i] + Upserted(cs[i..], condition)
    {
      var c := labeller.conditions[i];
      if c.conditionType == conditionType {
        if c.status != status || c.reason != reason || c.message != message {
          labeller.conditions := labeller.conditions[i := condition];
          assert labeller.conditions == cs[..i] + ([condition] + cs[i..][1..]);
        } else {
          assert cs[..i] + cs[i..] == cs;
        }
        return;
      }
      UpsertedSplit(cs, condition, i);
    }
    assert cs[..|cs|] == cs && cs[|cs|..] == [];
    labeller.conditions := labeller.conditions + [condition];
  }

  // ---- properties of Upserted ----

  predicate UniqueTypes(cs: seq<Condition>) {
    forall i, j :: 0 <= i < j < |cs| ==> cs[i].conditionType != cs[j].conditionType
  }

  function TypesOf(cs: seq<Condition>): set<string> {
    set x | x in cs :: x.conditionType
  }

  /**
   * Recording a condition leaves an entry of its type with its status,
   * reason and message, adds only that type, and keeps every entry of
   * another type.
   */
  lemma {:induction false} UpsertedRecords(cs: seq<Condition>, c: Condition)
    ensures exists x :: (x in Upserted(cs, c) && x.conditionType == c.conditionType &&
                         x.status == c.status && x.reason == c.reason && x.message == c.message)
    ensures TypesOf(Upserted(cs, c)) == TypesOf(cs) + {c.conditionType}
    ensures forall x :: x in cs && x.conditionType != c.conditionType ==> x in Upserted(cs, c)
  {
    if cs != [] && cs[0].conditionType != c.conditionType {
      UpsertedRecords(cs[1..], c);
      assert cs == [cs[0]] + cs[1..];
      assert TypesOf(cs) == {cs[0].conditionType} + TypesOf(cs[1..]);
      assert TypesOf(Upserted(cs, c)) == {cs[0].conditionType} + TypesOf(Upserted(cs[1..], c));
    } else if cs != [] {
      assert cs == [cs[0]] + cs[1..];
      if Changed(cs[0], c) {
        assert TypesOf([c] + cs[1..]) == {c.conditionType} + TypesOf(cs[1..]);
        assert TypesOf(cs) == {cs[0].conditionType} + TypesOf(cs[1..]);
        assert c in Upserted(cs, c);
      } else {
        assert cs[0] in Upserted(cs, c);
      }
    }
  }

  lemma {:induction false} UniqueSplit(cs: seq<Condition>)
    requires cs != [] && UniqueTypes(cs)
    ensures UniqueTypes(cs[1..]) && cs[0].conditionType !in TypesOf(cs[1..])
  {
    var rest := cs[1..];
    forall i, j | 0 <= i < j < |rest| ensures rest[i].conditionType != rest[j].conditionType {
      assert rest[i] == cs[i + 1] && rest[j] == cs[j + 1];
    }
    forall x | x in rest ensures x.conditionType != cs[0].conditionType {
      var j :| 0 <= j < |rest| && rest[j] == x;
      assert cs[j + 1] == x;
    }
  }

  lemma {:induction false} UniqueCons(x: Condition, rest: seq<Condition>)
    requires UniqueTypes(rest) && x.conditionType !in TypesOf(rest)
    ensures UniqueTypes([x] + rest)
  {
    var u := [x] + rest;
    forall i, j | 0 <= i < j < |u| ensures u[i].conditionType != u[j].conditionType {
      assert u[j] == rest[j - 1];
      if i > 0 {
        assert u[i] == rest[i - 1];
      }
    }
  }

  /** Without an entry of its type, the condition is appended and every other entry stays where it was. */
  lemma {:induction false} UpsertedAppends(cs: seq<Condition>, c: Condition)
    requires forall j :: 0 <= j < |cs| ==> cs[j].conditionType != c.conditionType
    ensures Upserted(cs, c) == cs + [c]
  {
    if cs != [] {
      assert forall j :: 0 <= j < |cs[1..]| ==> cs[1..][j] == cs[j + 1];
      UpsertedAppends(cs[1..], c);
      assert cs == [cs[0]] + cs[1..];
    }
  }

  /**
   * With a first entry of its type at `i`, that entry is replaced in place
   * when status, reason or message differ, and nothing changes otherwise.
   */
  lemma {:induction false} UpsertedAtFirst(cs: seq<Condition>, c: Condition, i: int)
    requires 0 <= i < |cs| && cs[i].conditionType == c.conditionType
    requires forall j :: 0 <= j < i ==> cs[j].conditionType != c.conditionType
    ensures Upserted(cs, c) == if Changed(cs[i], c) then cs[i := c] else cs
  {
    if i == 0 {
      assert [c] + cs[1..] == cs[0 := c];
    } else {
      var rest := cs[1..];
      assert forall j :: 0 <= j < i - 1 ==> rest[j] == cs[j + 1];
      assert rest[i - 1] == cs[i];
      UpsertedAtFirst(rest, c, i - 1);
      ConsUpdate(cs, i, c);
    }
  }

  lemma {:induction false} ConsUpdate(cs: seq<Condition>, i: int, c: Condition)
    requires 0 < i < |cs|
    ensures [cs[0]] + cs[1..][i - 1 := c] == cs[i := c] && [cs[0]] + cs[1..] == cs
  {
  }

  /** One entry per type is kept up. */
  lemma {:induction false} UpsertedKeepsTypesUnique(cs: seq<Condition>, c: Condition)
    requires UniqueTypes(cs)
    ensures UniqueTypes(Upserted(cs, c))
  {
    if cs != [] && cs[0].conditionType != c.conditionType {
      UniqueSplit(cs);
      UpsertedKeepsTypesUnique(cs[1..], c);
      UpsertedRecords(cs[1..], c);
      UniqueCons(cs[0], Upserted(cs[1..], c));
    } else if cs != [] && Changed(cs[0], c) {
      UniqueSplit(cs);
      UniqueCons(c, cs[1..]);
    }
  }

  /** Recording the same status, reason and message again changes nothing, not even the timestamp. */
  lemma {:induction false} UpsertedIdempotent(cs: seq<Condition>, c: Condition, later: int)
    ensures Upserted(Upserted(cs, c), c.(lastTransitionTime := later)) == Upserted(cs, c)
  {
    var c' := c.(lastTransitionTime := later);
    if cs == [] {
      assert Upserted([c], c') == [c];
    } else if cs[0].conditionType != c.conditionType {
      UpsertedIdempotent(cs[1..], c, later);
      assert Upserted(cs, c)[1..] == Upserted(cs[1..], c);
    } else if Changed(cs[0], c) {
      assert Upserted(cs, c) == [c] + cs[1..];
      assert ([c] + cs[1..])[0] == c;
    }
  }

  // ---- the labelling-error condition ----

  /** Go's `%v` of a list of strings: the elements separated by spaces, in brackets. */
  function FormatList(xs: seq<string>): string {
    if xs == [] then "[]" else "[" + Join(xs, ' ') + "]"
  }

  /** The message for a non-empty error list: all of them up to three, else the count and the first three. */
  function ErrorSummary(errs: seq<string>): string {
    if |errs| <= 3 then "Errors: " + FormatList(errs)
    else NatToString(|errs|) + " errors occurred, first 3: " + FormatList(errs[..3])
  }

  /** Status, reason and message of the `LabelingErrors` condition after a pass. */
  function LabelingErrorsCondition(errs: seq<string>): (ConditionStatus, string, string) {
    if |errs| > 0 then (ConditionTrue, "ResourceLabelingPartiallyFailed", ErrorSummary(errs))
    else (ConditionFalse, "NoErrors", "All resources successfully labeled")
  }

  /** A listed element occurs in the formatted list. */
  lemma {:induction false} FormatListContains(xs: seq<string>, i: int)
    requires 0 <= i < |xs|
    ensures Contains(FormatList(xs), xs[i])
  {
    JoinContainsPieces(xs, ' ', i);
    ContainsPrepend("[", Join(xs, ' '), xs[i]);
    ContainsAppend("[" + Join(xs, ' '), "]", xs[i]);
  }

  /**
   * The message names every error when there are at most three; otherwise it
   * starts with the number of errors and names the first three.
   */
  lemma {:induction false} ErrorSummaryMentions(errs: seq<string>, i: int)
    requires 0 <= i < |errs| && i < 3
    ensures Contains(ErrorSummary(errs), errs[i])
    ensures |errs| > 3 ==> NatToString(|errs|) <= ErrorSummary(errs) && Contains(ErrorSummary(errs), NatToString(|errs|))
  {
    if |errs| <= 3 {
      FormatListContains(errs, i);
      ContainsPrepend("Errors: ", FormatList(errs), errs[i]);
    } else {
      var count, rest := NatToString(|errs|), " errors occurred, first 3: " + FormatList(errs[..3]);
      FormatListContains(errs[..3], i);
      ContainsPrepend(count + " errors occurred, first 3: ", FormatList(errs[..3]), errs[i]);
      ContainsInfix([], count, rest);
      assert [] + count + rest == ErrorSummary(errs);
    }
  }

  /** The condition is raised exactly when some error was recorded. */
  lemma {:induction false} LabelingErrorsRaisedIffErrors(errs: seq<string>)
    ensures LabelingErrorsCondition(errs).0 == ConditionTrue <==> errs != []
    ensures errs != [] ==> |LabelingErrorsCondition(errs).2| > 0
  {
  }

  // ---- requeue interval and pod IPs ----

  const DefaultIntervalSeconds: int := 300

  /** Seconds until the next reconciliation: the configured interval when positive, five minutes otherwise. */
  function RequeueSeconds(intervalSeconds: int): (d: int)
    ensures d > 0
    ensures intervalSeconds > 0 ==> d == intervalSeconds
    ensures intervalSeconds <= 0 ==> d == DefaultIntervalSeconds
  {
    if intervalSeconds > 0 then intervalSeconds else DefaultIntervalSeconds
  }

  /** The IPs of a pod: its `status.podIPs`, or its single `status.podIP` when that list is empty. */
  method PodIPList(podIPs: seq<string>, podIP: string) returns (ips: seq<string>)
    ensures podIPs != [] ==> ips == podIPs
    ensures podIPs == [] && podIP != "" ==> ips == [podIP]
    ensures ips == [] <==> podIPs == [] && podIP == ""
  {
    ips := [];
    for i := 0 to |podIPs|
      invariant ips == podIPs[..i]
    {
      ips := ips + [podIPs[i]];
    }
    assert podIPs[..|podIPs|] == podIPs;
    if podIP != "" && |ips| == 0 {
      ips := ips + [podIP];
    }
  }
}
