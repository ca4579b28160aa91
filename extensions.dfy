/**
 * Sibling extensions as the debug plugin sees them, and the discovery step
 * that binds the plugin's four optional sibling slots by identifier.
 */
module Extensions {

  datatype Option<T> = None | Some(value: T) {
    /** This value when present, otherwise `other`. */
    function OrElse(other: Option<T>): Option<T> {
      if Some? then this else other
    }
  }

  /**
   * One key of an extension's prototype, with whether the value read
   * through the extension under that key is a function (the reflection on
   * the live object is replaced by this explicit flag).
   */
  datatype Member = Member(name: string, isFunction: bool)

  /** A sibling plugin: its identifier and the keys of its prototype, in key order. */
  datatype Extension = Extension(identifier: string, proto: seq<Member>)

  /** The four sibling slots of the debug plugin. */
  datatype Slot = Analytics | AjaxDependency | Properties | Channel

  const AnalyticsId: string := "ApplicationInsightsAnalytics"
  const AjaxDependencyId: string := "AjaxDependencyPlugin"
  const PropertiesId: string := "AppInsightsPropertiesPlugin"
  const ChannelId: string := "AppInsightsChannelPlugin"

  /** The identifier a sibling must carry to be bound to slot `s`. */
  function SlotId(s: Slot): string {
    match s
    case Analytics => AnalyticsId
    case AjaxDependency => AjaxDependencyId
    case Properties => PropertiesId
    case Channel => ChannelId
  }

  /** Distinct slots ask for distinct identifiers. */
  lemma SlotIdInjective(s: Slot, t: Slot)
    requires SlotId(s) == SlotId(t)
    ensures s == t
  {
  }

  /**
   * The slot value after scanning `exts` in order and overwriting on every
   * identifier match: the last extension carrying `id`, or None if none does.
   */
  function LastWithId(exts: seq<Extension>, id: string): (r: Option<Extension>)
    ensures r.Some? ==> r.value in exts && r.value.identifier == id
    ensures r.None? <==> forall e :: e in exts ==> e.identifier != id
  {
    if |exts| == 0 then None
    else if exts[|exts| - 1].identifier == id then Some(exts[|exts| - 1])
    else LastWithId(exts[..|exts| - 1], id)
  }

  /** The extension bound is the last one with the identifier: no later one matches. */
  lemma {:induction false} LastWithIdIsLastMatch(exts: seq<Extension>, id: string, k: nat)
    requires k < |exts| && exts[k].identifier == id
    requires forall j :: k < j < |exts| ==> exts[j].identifier != id
    ensures LastWithId(exts, id) == Some(exts[k])
  {
    if k < |exts| - 1 {
      LastWithIdIsLastMatch(exts[..|exts| - 1], id, k);
    }
  }

  /** An extension is bound to at most one slot. */
  lemma AtMostOneSlot(exts: seq<Extension>, e: Extension, s: Slot, t: Slot)
    requires LastWithId(exts, SlotId(s)) == Some(e)
    requires LastWithId(exts, SlotId(t)) == Some(e)
    ensures s == t
  {
  }
}
