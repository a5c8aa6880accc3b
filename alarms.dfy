/**
 * Removing alarms by id. The same by-id removal is used twice: against the
 * previous status's alarms (the delta gate), and against a user's
 * blacklisted alarm ids.
 */
module Alarms {
  import opened Domain

  /** The ids of `alarms`, in order. */
  function IdsOf(alarms: seq<AlarmDetail>): (ids: seq<string>)
    ensures |ids| == |alarms|
    ensures forall id :: id in ids <==> exists a :: a in alarms && a.alarmId == id
  {
    var ids := seq(|alarms|, i requires 0 <= i < |alarms| => alarms[i].alarmId);
    assert forall i :: 0 <= i < |alarms| ==> ids[i] == alarms[i].alarmId;
    ids
  }

  /**
   * `alarms` without every entry whose id is among `ids`; the description
   * plays no part, and the survivors keep their order.
   */
  function WithoutIds(alarms: seq<AlarmDetail>, ids: seq<string>): (r: seq<AlarmDetail>)
    ensures |r| <= |alarms|
    ensures forall a :: a in r <==> a in alarms && a.alarmId !in ids
    decreases |alarms|
  {
    if alarms == [] then []
    else
      var init, last := alarms[..|alarms| - 1], alarms[|alarms| - 1];
      assert alarms == init + [last];
      if last.alarmId in ids then WithoutIds(init, ids) else WithoutIds(init, ids) + [last]
  }

  /** Removal distributes over concatenation: the order of the survivors is the input order. */
  lemma {:induction false} WithoutIdsAppend(s: seq<AlarmDetail>, t: seq<AlarmDetail>, ids: seq<string>)
    ensures WithoutIds(s + t, ids) == WithoutIds(s, ids) + WithoutIds(t, ids)
    decreases |t|
  {
    if t == [] {
      assert s + t == s;
    } else {
      var t', last := t[..|t| - 1], t[|t| - 1];
      assert (s + t)[..|s + t| - 1] == s + t';
      assert t[..|t| - 1] == t';
      WithoutIdsAppend(s, t', ids);
    }
  }

  /** Nothing is removed exactly when no id matches, and then the list is unchanged. */
  lemma {:induction false} WithoutIdsKeepsAll(alarms: seq<AlarmDetail>, ids: seq<string>)
    ensures |WithoutIds(alarms, ids)| == |alarms| <==> forall a :: a in alarms ==> a.alarmId !in ids
    ensures (forall a :: a in alarms ==> a.alarmId !in ids) ==> WithoutIds(alarms, ids) == alarms
    decreases |alarms|
  {
    if alarms != [] {
      var init, last := alarms[..|alarms| - 1], alarms[|alarms| - 1];
      assert alarms == init + [last];
      WithoutIdsKeepsAll(init, ids);
    }
  }

  /**
   * In-place `removeIf` with the by-id predicate: walks `alarms` once and
   * reports whether anything was removed.
   */
  method RemoveMatchingIds(alarms: seq<AlarmDetail>, ids: seq<string>) returns (kept: seq<AlarmDetail>, removed: bool)
    ensures kept == WithoutIds(alarms, ids)
    ensures removed <==> |kept| < |alarms|
    ensures removed <==> exists a :: a in alarms && a.alarmId in ids
  {
    kept, removed := [], false;
    for i := 0 to |alarms|
      invariant kept == WithoutIds(alarms[..i], ids)
      invariant removed <==> |kept| < i
      invariant removed <==> exists a :: a in alarms[..i] && a.alarmId in ids
    {
      assert alarms[..i + 1] == alarms[..i] + [alarms[i]];
      if alarms[i].alarmId in ids {
        removed := true;
      } else {
        kept := kept + [alarms[i]];
      }
    }
    assert alarms[..|alarms|] == alarms;
  }

  /** What the delta gate leaves of the current alarms, and whether it removed any. */
  datatype Delta = Delta(remaining: seq<AlarmDetail>, suppressedAny: bool)

  /**
   * The delta gate: with no previous status nothing is removed; otherwise
   * every current alarm whose id occurs among the previous alarms is removed.
   */
  function AlarmDelta(current: seq<AlarmDetail>, previous: Option<seq<AlarmDetail>>): (d: Delta)
    ensures previous.None? ==> d.remaining == current && !d.suppressedAny
    ensures forall a :: a in d.remaining <==>
      a in current && (previous.Some? ==> forall p :: p in previous.value ==> p.alarmId != a.alarmId)
    ensures d.suppressedAny <==> |d.remaining| < |current|
    ensures d.suppressedAny <==>
      previous.Some? && exists a, p :: a in current && p in previous.value && p.alarmId == a.alarmId
  {
    match previous
    case None => Delta(current, false)
    case Some(prev) =>
      var remaining := WithoutIds(current, IdsOf(prev));
      WithoutIdsKeepsAll(current, IdsOf(prev));
      Delta(remaining, |remaining| < |current|)
  }
}
