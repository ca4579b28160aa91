/**
 * Routing of tracker names to instrumentation targets, the hooks requested
 * for them and the debug bins created for them.
 */
module Routing {
  import opened Extensions
  import opened AllowLists

  /**
   * Where a tracker is instrumented: the prototype of a sibling, the channel
   * instance itself, or the prototype of the diagnostic logger.
   */
  datatype Target = Proto(slot: Slot) | ChannelInstance | DiagLogProto

  /** The five allow-lists, one per sibling and one for the diagnostic logger. */
  datatype ProtoFns = ProtoFns(
    analytics: seq<string>,
    properties: seq<string>,
    ajax: seq<string>,
    channel: seq<string>,
    diagLog: seq<string>)

  /** One recorded instrumentation request: hook `tracker` on `target`. */
  datatype Hook = Hook(target: Target, tracker: string)

  /** A debug bin: its tracker, its call counter and its on-screen position. */
  datatype Bin = Bin(name: string, count: nat, position: nat)

  /** Whether `target` is a candidate for `tracker` at all. */
  predicate Accepts(fns: ProtoFns, target: Target, tracker: string) {
    match target
    case Proto(Properties) => tracker in fns.properties
    case Proto(Analytics) => tracker in fns.analytics
    case Proto(AjaxDependency) => tracker in fns.ajax
    case DiagLogProto => tracker in fns.diagLog
    case ChannelInstance => tracker == SenderName
    case Proto(Channel) => tracker in fns.channel
  }

  /** Priority of a target; a lower rank is tried first. */
  function Rank(target: Target): nat {
    match target
    case Proto(Properties) => 0
    case Proto(Analytics) => 1
    case Proto(AjaxDependency) => 2
    case DiagLogProto => 3
    case ChannelInstance => 4
    case Proto(Channel) => 5
  }

  /** No two targets share a priority, so the best candidate is unique. */
  lemma RankInjective(s: Target, t: Target)
    requires Rank(s) == Rank(t)
    ensures s == t
  {
  }

  /**
   * The target a tracker is instrumented on: the accepting target of lowest
   * rank, or None when no target accepts it (the tracker is skipped).
   */
  function Route(fns: ProtoFns, tracker: string): (r: Option<Target>)
    ensures r.Some? ==> Accepts(fns, r.value, tracker)
    ensures r.Some? ==> forall t :: Accepts(fns, t, tracker) ==> Rank(r.value) <= Rank(t)
    ensures r.None? ==> forall t :: !Accepts(fns, t, tracker)
  {
    if tracker in fns.properties then Some(Proto(Properties))
    else if tracker in fns.analytics then Some(Proto(Analytics))
    else if tracker in fns.ajax then Some(Proto(AjaxDependency))
    else if tracker in fns.diagLog then Some(DiagLogProto)
    else if tracker == SenderName then Some(ChannelInstance)
    else if tracker in fns.channel then Some(Proto(Channel))
    else None
  }

  /** The instrumentation requests issued for `trackers`, in order. */
  function Hooks(fns: ProtoFns, trackers: seq<string>): (r: seq<Hook>)
    ensures |r| <= |trackers|
    ensures forall h :: h in r ==> h.tracker in trackers && Route(fns, h.tracker) == Some(h.target)
  {
    if |trackers| == 0 then []
    else
      var tracker := trackers[|trackers| - 1];
      Hooks(fns, trackers[..|trackers| - 1])
      + match Route(fns, tracker) {
        case Some(target) => [Hook(target, tracker)]
        case None => []
      }
  }

  /** The tracker names of a hook sequence, in order. */
  function HookedNames(hooks: seq<Hook>): (r: seq<string>)
    ensures |r| == |hooks|
    ensures forall i :: 0 <= i < |hooks| ==> r[i] == hooks[i].tracker
  {
    if |hooks| == 0 then [] else HookedNames(hooks[..|hooks| - 1]) + [hooks[|hooks| - 1].tracker]
  }

  /**
   * Exactly one hook per occurrence of a routed tracker, and none for a
   * skipped one.
   */
  lemma {:induction false} HookPerRoutedOccurrence(fns: ProtoFns, trackers: seq<string>, t: string)
    ensures multiset(HookedNames(Hooks(fns, trackers)))[t]
            == if Route(fns, t).Some? then multiset(trackers)[t] else 0
  {
    if |trackers| > 0 {
      var init := trackers[..|trackers| - 1];
      var last := trackers[|trackers| - 1];
      assert trackers == init + [last];
      HookPerRoutedOccurrence(fns, init, t);
      var prev := Hooks(fns, init);
      var names := HookedNames(prev);
      if Route(fns, last).Some? {
        var h := Hook(Route(fns, last).value, last);
        assert Hooks(fns, trackers) == prev + [h];
        assert (prev + [h])[..|prev|] == prev;
        assert HookedNames(prev + [h]) == names + [last];
        assert multiset(names + [last]) == multiset(names) + multiset{last};
      } else {
        assert Hooks(fns, trackers) == prev;
      }
      assert multiset(trackers) == multiset(init) + multiset{last};
    }
  }

  /** Hooks are issued in tracker order: a split list gives split hooks. */
  lemma {:induction false} HooksAppend(fns: ProtoFns, a: seq<string>, b: seq<string>)
    ensures Hooks(fns, a + b) == Hooks(fns, a) + Hooks(fns, b)
    decreases |b|
  {
    if |b| == 0 {
      assert a + b == a;
    } else {
      var b' := b[..|b| - 1];
      assert (a + b)[..|a + b| - 1] == a + b';
      assert (a + b)[|a + b| - 1] == b[|b| - 1];
      HooksAppend(fns, a, b');
    }
  }

  /**
   * The debug bins after the first `n` trackers were routed: each routed
   * tracker `trackers[i]` (re)creates its bin with count 0 at position
   * (i + 1) * 50.
   */
  function Bins(fns: ProtoFns, trackers: seq<string>, n: nat): map<string, Bin>
    requires n <= |trackers|
  {
    if n == 0 then map[]
    else
      var tracker := trackers[n - 1];
      var prev := Bins(fns, trackers, n - 1);
      if Route(fns, tracker).Some? then prev[tracker := Bin(tracker, 0, n * 50)] else prev
  }

  /**
   * A bin exists exactly for the routed trackers among the first `n`; it
   * starts at count 0 and sits at (k + 1) * 50 for the last index k < n at
   * which its tracker occurs (earlier occurrences are overwritten).
   */
  lemma {:induction false} BinsCharacterized(fns: ProtoFns, trackers: seq<string>, n: nat, t: string)
    requires n <= |trackers|
    ensures t in Bins(fns, trackers, n) <==> t in trackers[..n] && Route(fns, t).Some?
    ensures t in Bins(fns, trackers, n) ==>
      && Bins(fns, trackers, n)[t].name == t
      && Bins(fns, trackers, n)[t].count == 0
      && exists k :: 0 <= k < n && trackers[k] == t
           && Bins(fns, trackers, n)[t].position == (k + 1) * 50
           && forall j :: k < j < n ==> trackers[j] != t
  {
    if n > 0 {
      BinsCharacterized(fns, trackers, n - 1, t);
      assert trackers[..n] == trackers[..n - 1] + [trackers[n - 1]];
      if trackers[n - 1] == t && Route(fns, t).Some? {
        assert Bins(fns, trackers, n)[t].position == ((n - 1) + 1) * 50;
      }
    }
  }

  /** The bins are keyed by exactly the trackers that received a hook. */
  lemma BinsMatchHooks(fns: ProtoFns, trackers: seq<string>, t: string)
    ensures t in Bins(fns, trackers, |trackers|) <==> t in HookedNames(Hooks(fns, trackers))
  {
    BinsCharacterized(fns, trackers, |trackers|, t);
    HookPerRoutedOccurrence(fns, trackers, t);
    assert trackers[..|trackers|] == trackers;
  }
}
