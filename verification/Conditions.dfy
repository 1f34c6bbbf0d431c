/**
 The condition list of a BentoRequest's status, with the contract of
 meta.SetStatusCondition and meta.FindStatusCondition of k8s.io/apimachinery.
 */
module Conditions {
  import opened Basics

  datatype Status = True | False | Unknown

  /** The six condition types the controller writes, and any type some other writer may use. */
  datatype Kind =
    | ModelsSeeding
    | ImageBuilding
    | ImageExists
    | ImageExistsChecked
    | ModelsExists
    | BentoAvailable
    | Foreign(name: string)

  /** since is the last transition time; 0 is the zero time, which asks the library to supply one. */
  datatype Condition = Condition(kind: Kind, status: Status, reason: string, message: string, since: int)

  /** A condition as the controller builds it, without a transition time. */
  function Report(kind: Kind, status: Status, message: string): Condition
  {
    Condition(kind, status, "Reconciling", message, 0)
  }

  function Find(conditions: seq<Condition>, kind: Kind): (found: Option<Condition>)
    ensures found.Some? ==> found.value.kind == kind
  {
    if conditions == [] then None
    else if conditions[0].kind == kind then Some(conditions[0])
    else Find(conditions[1..], kind)
  }

  /** What becomes of one entry when a condition of its kind is set. */
  function Merged(current: Option<Condition>, report: Condition, now: int): Condition
  {
    var since := if report.since == 0 then now else report.since;
    match current
    case None => report.(since := since)
    case Some(c) =>
      c.(status := report.status, reason := report.reason, message := report.message,
         since := if c.status == report.status then c.since else since)
  }

  /** meta.SetStatusCondition: update the first entry of that kind, or append. */
  function Set(conditions: seq<Condition>, c: Condition, now: int): (r: seq<Condition>)
    ensures forall k :: Find(r, k) == if k == c.kind then Some(Merged(Find(conditions, k), c, now)) else Find(conditions, k)
  {
    if conditions == [] then [Merged(None, c, now)]
    else if conditions[0].kind == c.kind then [Merged(Some(conditions[0]), c, now)] + conditions[1..]
    else
      var rest := Set(conditions[1..], c, now);
      var r := [conditions[0]] + rest;
      assert r[1..] == rest;
      r
  }

  function SetAll(conditions: seq<Condition>, news: seq<Condition>, now: int): (r: seq<Condition>)
    ensures |news| == 1 ==> r == Set(conditions, news[0], now)
    ensures |news| == 2 ==> r == Set(Set(conditions, news[0], now), news[1], now)
    ensures |news| == 3 ==> r == Set(Set(Set(conditions, news[0], now), news[1], now), news[2], now)
    decreases |news|
  {
    if news == [] then conditions else SetAll(Set(conditions, news[0], now), news[1..], now)
  }

  /** Two lists that agree on every condition type the controller owns. */
  ghost predicate SameOwn(a: seq<Condition>, b: seq<Condition>)
  {
    forall k: Kind :: k.Foreign? || Find(a, k) == Find(b, k)
  }

  lemma {:induction false} SetAllKeepsOwn(a: seq<Condition>, b: seq<Condition>, news: seq<Condition>, now: int)
    requires SameOwn(a, b)
    ensures SameOwn(SetAll(a, news, now), SetAll(b, news, now))
    decreases |news|
  {
    if news != [] {
      SetAllKeepsOwn(Set(a, news[0], now), Set(b, news[0], now), news[1..], now);
    }
  }

  /** Types that are not reported keep their entry. */
  lemma {:induction false} SetAllUntouched(conditions: seq<Condition>, news: seq<Condition>, now: int, kind: Kind)
    requires forall c <- news :: c.kind != kind
    ensures Find(SetAll(conditions, news, now), kind) == Find(conditions, kind)
    decreases |news|
  {
    if news != [] {
      assert news[0] in news;
      SetAllUntouched(Set(conditions, news[0], now), news[1..], now, kind);
    }
  }

  predicate Distinct(conditions: seq<Condition>)
  {
    forall i, j :: 0 <= i < j < |conditions| ==> conditions[i].kind != conditions[j].kind
  }

  /** The same types in the same places. */
  predicate SameKinds(a: seq<Condition>, b: seq<Condition>)
  {
    && |a| == |b|
    && forall i :: 0 <= i < |a| ==> a[i].kind == b[i].kind
  }

  lemma {:induction false} FindAbsent(conditions: seq<Condition>, kind: Kind)
    ensures Find(conditions, kind).None? <==> forall i :: 0 <= i < |conditions| ==> conditions[i].kind != kind
  {
    if conditions != [] {
      FindAbsent(conditions[1..], kind);
      assert forall i :: 1 <= i < |conditions| ==> conditions[i] == conditions[1..][i - 1];
    }
  }

  /** In a list with unique types, the entry at i is the one its type finds. */
  lemma {:induction false} FindAt(conditions: seq<Condition>, i: nat)
    requires Distinct(conditions) && i < |conditions|
    ensures Find(conditions, conditions[i].kind) == Some(conditions[i])
  {
    if i > 0 {
      FindAt(conditions[1..], i - 1);
      assert conditions[1..][i - 1] == conditions[i];
    }
  }

  /** Setting a type rewrites its first entry and leaves the others and the order alone. */
  lemma {:induction false} SetAt(conditions: seq<Condition>, c: Condition, now: int, i: nat)
    requires i < |conditions| && conditions[i].kind == c.kind
    requires forall j :: 0 <= j < i ==> conditions[j].kind != c.kind
    ensures Set(conditions, c, now) == conditions[i := Merged(Some(conditions[i]), c, now)]
  {
    if i > 0 {
      var rest := conditions[1..];
      SetAt(rest, c, now, i - 1);
      assert Set(conditions, c, now) == [conditions[0]] + Set(rest, c, now);
    }
  }

  lemma {:induction false} SetAppends(conditions: seq<Condition>, c: Condition, now: int)
    requires Find(conditions, c.kind).None?
    ensures Set(conditions, c, now) == conditions + [Merged(None, c, now)]
  {
    if conditions != [] {
      SetAppends(conditions[1..], c, now);
    }
  }

  /** Setting a condition keeps the types unique. */
  lemma SetKeepsDistinct(conditions: seq<Condition>, c: Condition, now: int)
    requires Distinct(conditions)
    ensures Distinct(Set(conditions, c, now))
  {
    FindAbsent(conditions, c.kind);
    if Find(conditions, c.kind).None? {
      SetAppends(conditions, c, now);
    } else {
      var i :| 0 <= i < |conditions| && conditions[i].kind == c.kind;
      SetAt(conditions, c, now, i);
    }
  }

  lemma {:induction false} SetAllKeepsDistinct(conditions: seq<Condition>, news: seq<Condition>, now: int)
    requires Distinct(conditions)
    ensures Distinct(SetAll(conditions, news, now))
    decreases |news|
  {
    if news != [] {
      SetKeepsDistinct(conditions, news[0], now);
      SetAllKeepsDistinct(Set(conditions, news[0], now), news[1..], now);
    }
  }

  /** Setting a type that is already present keeps the length and every entry's type. */
  lemma {:induction false} SetLength(conditions: seq<Condition>, c: Condition, now: int)
    ensures Find(conditions, c.kind).Some? ==>
              SameKinds(Set(conditions, c, now), conditions)
  {
    if conditions != [] && conditions[0].kind != c.kind {
      SetLength(conditions[1..], c, now);
      if Find(conditions, c.kind).Some? {
        var r := Set(conditions, c, now);
        assert r[1..] == Set(conditions[1..], c, now);
        assert forall i :: 1 <= i < |r| ==> r[i] == r[1..][i - 1] && conditions[i] == conditions[1..][i - 1];
      }
    }
  }

  /**
   The loop of setStatusConditionsToUnknow from position i on: the range expression was
   evaluated once, so it runs over the same number of entries, but each entry is read from the
   list the earlier iterations have already changed, copied, and set again.
   */
  function RangeUnknown(conditions: seq<Condition>, i: nat, message: string, now: int): (r: seq<Condition>)
    requires i <= |conditions|
    ensures SameKinds(r, conditions)
    decreases |conditions| - i
  {
    if i == |conditions| then conditions
    else
      var copy := conditions[i].(status := Unknown, message := message);
      FindAbsent(conditions, copy.kind);
      SetLength(conditions, copy, now);
      RangeUnknown(Set(conditions, copy, now), i + 1, message, now)
  }

  predicate Marked(c: Condition, message: string)
  {
    c.status == Unknown && c.message == message
  }

  /** Whatever the list, duplicates included, the loop leaves marked every type that it meets. */
  lemma {:induction false} RangeUnknownMarks(conditions: seq<Condition>, i: nat, message: string, now: int, kind: Kind, at: nat)
    requires i <= |conditions| && at < |conditions| && conditions[at].kind == kind
    requires i <= at || (Find(conditions, kind).Some? && Marked(Find(conditions, kind).value, message))
    ensures var found := Find(RangeUnknown(conditions, i, message, now), kind);
            found.Some? && Marked(found.value, message)
    decreases |conditions| - i
  {
    FindAbsent(conditions, kind);
    if i < |conditions| {
      var copy := conditions[i].(status := Unknown, message := message);
      var next := Set(conditions, copy, now);
      FindAbsent(conditions, copy.kind);
      SetLength(conditions, copy, now);
      assert next[at].kind == kind;
      RangeUnknownMarks(next, i + 1, message, now, kind, at);
    }
  }

  /** The loop marks every type that is present and adds none. */
  lemma RangeUnknownFinds(conditions: seq<Condition>, message: string, now: int, kind: Kind)
    ensures var found := Find(RangeUnknown(conditions, 0, message, now), kind);
            && (found.Some? <==> Find(conditions, kind).Some?)
            && (found.Some? ==> Marked(found.value, message))
  {
    var r := RangeUnknown(conditions, 0, message, now);
    FindAbsent(conditions, kind);
    FindAbsent(r, kind);
    if Find(conditions, kind).Some? {
      var at :| 0 <= at < |conditions| && conditions[at].kind == kind;
      RangeUnknownMarks(conditions, 0, message, now, kind, at);
    } else {
      assert forall i :: 0 <= i < |r| ==> r[i].kind == conditions[i].kind;
    }
  }

  /** Whatever the list, the loop keeps the transition time of every type whose time is set. */
  lemma {:induction false} RangeUnknownKeepsSince(conditions: seq<Condition>, i: nat, message: string, now: int, kind: Kind)
    requires i <= |conditions| && Find(conditions, kind).Some? && Find(conditions, kind).value.since != 0
    requires Find(conditions, kind).value.status == Unknown || forall j :: 0 <= j < i ==> conditions[j].kind != kind
    ensures var found := Find(RangeUnknown(conditions, i, message, now), kind);
            found.Some? && found.value.since == Find(conditions, kind).value.since
    decreases |conditions| - i
  {
    if i < |conditions| {
      var copy := conditions[i].(status := Unknown, message := message);
      var next := Set(conditions, copy, now);
      FindAbsent(conditions, copy.kind);
      SetLength(conditions, copy, now);
      if copy.kind == kind && Find(conditions, kind).value.status != Unknown {
        FindFirst(conditions, i);
      }
      RangeUnknownKeepsSince(next, i + 1, message, now, kind);
    }
  }

  /** The first entry of its type is the one that is found. */
  lemma {:induction false} FindFirst(conditions: seq<Condition>, i: nat)
    requires i < |conditions| && forall j :: 0 <= j < i ==> conditions[j].kind != conditions[i].kind
    ensures Find(conditions, conditions[i].kind) == Some(conditions[i])
  {
    if i > 0 {
      FindFirst(conditions[1..], i - 1);
      assert conditions[1..][i - 1] == conditions[i];
    }
  }

  /** The simultaneous map the loop is meant to be: status and message change, nothing else does. */
  function AllUnknown(conditions: seq<Condition>, message: string): (r: seq<Condition>)
    ensures |r| == |conditions|
    ensures forall i :: 0 <= i < |r| ==> r[i] == conditions[i].(status := Unknown, message := message)
  {
    seq(|conditions|, i requires 0 <= i < |conditions| => conditions[i].(status := Unknown, message := message))
  }

  /**
   Mutating while ranging is harmless on lists with unique types: the loop equals the
   simultaneous map, so it keeps length, order, types, reasons and transition times. Times are
   kept because each copy carries its own old one, which the library then reuses.
   */
  lemma {:induction false} RangeUnknownIsSimultaneous(conditions: seq<Condition>, message: string, now: int)
    requires Distinct(conditions)
    requires forall c <- conditions :: c.since != 0
    ensures RangeUnknown(conditions, 0, message, now) == AllUnknown(conditions, message)
  {
    RangeUnknownFrom(conditions, conditions, 0, message, now);
  }

  lemma {:induction false} RangeUnknownFrom(
      original: seq<Condition>, conditions: seq<Condition>, i: nat, message: string, now: int)
    requires Distinct(original) && forall c <- original :: c.since != 0
    requires i <= |original|
    requires conditions == AllUnknown(original, message)[..i] + original[i..]
    ensures RangeUnknown(conditions, i, message, now) == AllUnknown(original, message)
    decreases |original| - i
  {
    var all := AllUnknown(original, message);
    if i == |original| {
      assert conditions == all;
    } else {
      assert forall j :: 0 <= j < |original| ==> conditions[j].kind == original[j].kind;
      var copy := conditions[i].(status := Unknown, message := message);
      assert conditions[i] == original[i] && original[i] in original;
      SetAt(conditions, copy, now, i);
      var next := Set(conditions, copy, now);
      assert next == conditions[i := Merged(Some(conditions[i]), copy, now)];
      assert Merged(Some(conditions[i]), copy, now) == all[i];
      assert next == all[..i + 1] + original[i + 1..];
      RangeUnknownFrom(original, next, i + 1, message, now);
    }
  }

  /** The same loop as the controller runs it, on one list variable that it keeps reassigning. */
  method MarkAllUnknown(conditions: seq<Condition>, message: string, now: int) returns (r: seq<Condition>)
    ensures r == RangeUnknown(conditions, 0, message, now)
    ensures Distinct(conditions) && (forall c <- conditions :: c.since != 0) ==> r == AllUnknown(conditions, message)
  {
    r := conditions;
    for i := 0 to |conditions|
      invariant |r| == |conditions|
      invariant RangeUnknown(r, i, message, now) == RangeUnknown(conditions, 0, message, now)
    {
      var condition := r[i];
      condition := condition.(status := Unknown, message := message);
      FindAbsent(r, condition.kind);
      SetLength(r, condition, now);
      r := Set(r, condition, now);
    }
    if Distinct(conditions) && forall c <- conditions :: c.since != 0 {
      RangeUnknownIsSimultaneous(conditions, message, now);
    }
  }
}
